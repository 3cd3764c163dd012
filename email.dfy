/**
 * src/email.js: `sendEmail`, which sends one mail unless mail is switched off
 * and rethrows a transport failure, and `sendBatchEmail`, which turns a
 * collection's notifications into one mail: a subject, an opening of three
 * lines, then each message's cleaned lines followed by a blank line, with
 * runs of blank lines collapsed and the whole text trimmed.
 */
module Email {
  import opened Wrappers
  import JsText
  import Events
  import Config
  import Sinks

  /** `!config.emailEnabled || !config.emailTo || config.emailTo.length === 0`. */
  predicate MailOff(cfg: Config.Settings) {
    !cfg.emailEnabled || cfg.emailTo == ""
  }

  /** `config.emailFrom || config.emailSmtpUser`. */
  function Sender(cfg: Config.Settings): string {
    if cfg.emailFrom != "" then cfg.emailFrom else cfg.emailSmtpUser
  }

  /** How `sendEmail` ends: returns early, resolves after sending, or rethrows. */
  datatype SendResult = Disabled | Delivered | Threw

  /** `sendEmail(subject, message)`; `delivered` is whether the transport accepted the mail. */
  method SendEmail(out: Sinks.Outbox, cfg: Config.Settings, subject: string, message: string, delivered: bool)
    returns (r: SendResult)
    modifies out
    ensures r == if MailOff(cfg) then Disabled else if delivered then Delivered else Threw
    ensures out.mails == old(out.mails)
                         + (if r == Delivered then [Sinks.Mail(Sender(cfg), cfg.emailTo, subject, message)] else [])
    ensures out.slack == old(out.slack)
  {
    if MailOff(cfg) {
      return Disabled;
    }
    out.Deliver(Sinks.Mail(Sender(cfg), cfg.emailTo, subject, message), delivered);
    r := if delivered then Delivered else Threw;
  }

  /** One queued notification: its event, its message text and the product's tag. */
  datatype Notification = Notification(eventType: Events.EventType, message: string, hashNumber: Option<string>)

  /** The subject: `#<tag>在庫追加` for a lone NewHighPricePage, else the collection and the count. */
  function Subject(collectionName: string, ns: seq<Notification>): (r: string)
    ensures |ns| == 1 && ns[0].eventType == Events.NewHighPricePage
            ==> var tag := Events.Joined(ns[0].hashNumber);
                |r| == |tag| + 5 && r[0] == '#' && r[1..|tag| + 1] == tag && r[|tag| + 1..] == "在庫追加"
    ensures !(|ns| == 1 && ns[0].eventType == Events.NewHighPricePage)
            ==> var head := "【" + collectionName + "】";
                var count := JsText.IntToDecimal(|ns|);
                && |r| == |head| + 11 + |count| + 2 && r[..|head|] == head
                && r[|head|..|head| + 11] == "在庫・価格変動通知 (" && r[|head| + 11..|r| - 2] == count
                && r[|r| - 2..] == "件)"
  {
    if |ns| == 1 && ns[0].eventType == Events.NewHighPricePage then
      "#" + Events.Joined(ns[0].hashNumber) + "在庫追加"
    else
      var head := "【" + collectionName + "】";
      var count := JsText.IntToDecimal(|ns|);
      var r := head + "在庫・価格変動通知 (" + count + "件)";
      assert r[|head|..|head| + 11] == "在庫・価格変動通知 (";
      assert r[|head| + 11..|r| - 2] == count;
      r
  }

  /** `【${collectionName}】の在庫・価格変動通知` */
  function TitleLine(collectionName: string): string {
    "【" + collectionName + "】の在庫・価格変動通知"
  }

  /** `変動件数: ${notifications.length}件` */
  function CountLine(count: nat): string {
    "変動件数: " + JsText.IntToDecimal(count) + "件"
  }

  /** The three lines the body starts with. */
  function OpeningLines(collectionName: string, count: nat): seq<string> {
    [TitleLine(collectionName), CountLine(count), ""]
  }

  /** `message.split('\n').map(line => line.trim()).filter(line => line.length > 0)`. */
  function TidyLines(message: string): seq<string> {
    JsText.NonEmptyParts(JsText.TrimAll(JsText.Split(message, '\n')))
  }

  /** Each tidy line is a non-empty line without a line break that trimming leaves alone. */
  lemma TidyLinesAreTrimmed(message: string)
    ensures forall i :: 0 <= i < |TidyLines(message)| ==>
              TidyLines(message)[i] != [] && '\n' !in TidyLines(message)[i] && JsText.Trim(TidyLines(message)[i]) == TidyLines(message)[i]
  {
    var parts := JsText.Split(message, '\n');
    var trimmed := JsText.TrimAll(parts);
    var r := JsText.NonEmptyParts(trimmed);
    JsText.SplitFacts(message, '\n');
    JsText.NonEmptyPartsFacts(trimmed);
    forall i | 0 <= i < |r| ensures '\n' !in r[i] && JsText.Trim(r[i]) == r[i] {
      assert r[i] in trimmed;
      var k :| 0 <= k < |trimmed| && trimmed[k] == r[i];
      JsText.TrimAllAt(parts, k);
      TrimmedLine(parts[k]);
    }
  }

  /** A trimmed piece of a line is a line that trimming leaves alone. */
  lemma TrimmedLine(t: string)
    requires '\n' !in t
    ensures '\n' !in JsText.Trim(t) && JsText.Trim(JsText.Trim(t)) == JsText.Trim(t)
  {
    var r := JsText.Trim(t);
    var o := JsText.TrimOffset(t);
    assert r == t[o..o + |r|];
    assert forall k :: 0 <= k < |r| ==> r[k] == t[o + k];
    if r != [] {
      JsText.TrimEnds(t);
      JsText.TrimUnchanged(r);
    }
  }

  /** A character the regular-expression `.` matches. */
  predicate DotMatches(c: char) {
    c != '\n' && c != '\r' && c != '\U{2028}' && c != '\U{2029}'
  }

  /** `s` matches `.+`. */
  predicate Dots(s: string) {
    s != [] && DotMatches(s[0]) && (|s| == 1 || Dots(s[1..]))
  }

  /** `s` matches `[\d,]+`. */
  predicate DigitsAndCommas(s: string) {
    s != [] && JsText.IsGroupedChar(s[0]) && (|s| == 1 || DigitsAndCommas(s[1..]))
  }

  /** `s` matches `\d+`. */
  predicate Digits(s: string) {
    s != [] && JsText.IsDigit(s[0]) && (|s| == 1 || Digits(s[1..]))
  }

  /** `line` matches `/^【.+】¥[\d,]+ 在庫\d+$/` with `】` at `i` and the stock label at `j`. */
  predicate HeaderAt(line: string, i: nat, j: nat) {
    && 2 <= i && i + 2 < j && j + 3 < |line|
    && line[0] == '【' && Dots(line[1..i]) && line[i..i + 2] == "】¥"
    && DigitsAndCommas(line[i + 2..j]) && line[j..j + 3] == " 在庫" && Digits(line[j + 3..])
  }

  /** Tries every split point from `(i, j)` on, `j` fastest. */
  predicate HeaderSearch(line: string, i: nat, j: nat)
    decreases |line| - i, |line| - j
  {
    if i >= |line| then false
    else if j >= |line| then HeaderSearch(line, i + 1, 0)
    else HeaderAt(line, i, j) || HeaderSearch(line, i, j + 1)
  }

  /** `line.match(/^【.+】¥[\d,]+ 在庫\d+$/)`; `HeaderLikeMeans` relates it to `HeaderAt`. */
  predicate HeaderLike(line: string) {
    HeaderSearch(line, 0, 0)
  }

  /** Drops the first line when it looks like a notification header. */
  function DropHeader(lines: seq<string>): seq<string> {
    if |lines| > 0 && HeaderLike(lines[0]) then lines[1..] else lines
  }

  /** `cleanMessage`. */
  function CleanMessage(message: string): string {
    JsText.Join(DropHeader(TidyLines(message)), "\n")
  }

  /** Every notification's cleaned message, in order. */
  function Cleaned(ns: seq<Notification>): (cs: seq<string>)
    ensures |cs| == |ns|
  {
    if ns == [] then [] else Cleaned(ns[..|ns| - 1]) + [CleanMessage(ns[|ns| - 1].message)]
  }

  /** What one cleaned message adds to `lines`: itself and a blank line, or nothing when it is empty. */
  function Entry(clean: string): seq<string> {
    if clean != "" then [clean, ""] else []
  }

  /** What the loop adds to `lines` for the cleaned messages `cs`. */
  function Entries(cs: seq<string>): seq<string> {
    if cs == [] then [] else Entries(cs[..|cs| - 1]) + Entry(cs[|cs| - 1])
  }

  /** `.replace(/\n{3,}/g, '\n\n').trim()`. */
  function Finish(text: string): string {
    JsText.Trim(JsText.CollapseBlankRuns(text))
  }

  /** The mail body `sendBatchEmail` sends. */
  function Body(collectionName: string, ns: seq<Notification>): string {
    Finish(JsText.Join(OpeningLines(collectionName, |ns|) + Entries(Cleaned(ns)), "\n"))
  }

  /** The loop body's cleaning of one message: its tidy lines, less a header line, joined. */
  method CleanOne(message: string) returns (clean: string)
    ensures clean == CleanMessage(message)
  {
    var messageLines := TidyLines(message);
    if |messageLines| > 0 && HeaderLike(messageLines[0]) {
      messageLines := messageLines[1..];
    }
    clean := JsText.Join(messageLines, "\n");
  }

  /** Cleaning one more notification appends its cleaned message. */
  lemma CleanedSnoc(ns: seq<Notification>, i: nat)
    requires i < |ns|
    ensures Cleaned(ns[..i + 1]) == Cleaned(ns[..i]) + [CleanMessage(ns[i].message)]
  {
    assert ns[..i + 1][..i] == ns[..i];
  }

  /** One more cleaned message appends its entry. */
  lemma EntriesSnoc(cs: seq<string>, c: string)
    ensures Entries(cs + [c]) == Entries(cs) + Entry(c)
  {
    assert (cs + [c])[..|cs|] == cs;
  }

  /** One turn of the loop in `PushEntries`: pushing a cleaned message's entry. */
  lemma PushStep(start: seq<string>, lines: seq<string>, before: seq<string>, clean: string)
    requires lines == start + Entries(before)
    ensures (if clean != "" then lines + [clean] + [""] else lines) == start + Entries(before + [clean])
  {
    EntriesSnoc(before, clean);
    if clean != "" {
      assert lines + [clean] + [""] == start + (Entries(before) + [clean, ""]);
    } else {
      assert Entries(before) + Entry(clean) == Entries(before);
    }
  }

  /** The loop of `sendBatchEmail`: pushes each notification's entry onto `lines`. */
  method PushEntries(start: seq<string>, ns: seq<Notification>) returns (lines: seq<string>)
    ensures lines == start + Entries(Cleaned(ns))
  {
    lines := start;
    for i := 0 to |ns|
      invariant lines == start + Entries(Cleaned(ns[..i]))
    {
      var clean := CleanOne(ns[i].message);
      CleanedSnoc(ns, i);
      PushStep(start, lines, Cleaned(ns[..i]), clean);
      if clean != "" {
        lines := lines + [clean];
        lines := lines + [""];
      }
    }
    assert ns[..|ns|] == ns;
  }

  /** The body of `sendBatchEmail`: the opening and the entries joined, blank runs collapsed, trimmed. */
  method BuildBody(collectionName: string, ns: seq<Notification>) returns (message: string)
    ensures message == Body(collectionName, ns)
  {
    var lines := PushEntries(OpeningLines(collectionName, |ns|), ns);
    message := Finish(JsText.Join(lines, "\n"));
  }

  /**
   * `sendBatchEmail(collectionName, notifications)`: nothing when mail is off
   * or there is nothing to send; otherwise one mail with `Subject` and `Body`.
   * A transport failure is caught, so the call always resolves.
   */
  method SendBatchEmail(out: Sinks.Outbox, cfg: Config.Settings, collectionName: string, ns: seq<Notification>,
                        delivered: bool)
    modifies out
    ensures out.mails == old(out.mails)
              + (if !MailOff(cfg) && ns != [] && delivered
                 then [Sinks.Mail(Sender(cfg), cfg.emailTo, Subject(collectionName, ns), Body(collectionName, ns))]
                 else [])
    ensures out.slack == old(out.slack)
  {
    if MailOff(cfg) || ns == [] {
      return;
    }
    var subject := Subject(collectionName, ns);
    var message := BuildBody(collectionName, ns);
    var r := SendEmail(out, cfg, subject, message, delivered);
  }

  // ---------------------------------------------------------------- properties

  /** Finishing leaves no run of three newlines and no white space at either end. */
  lemma FinishIsTidy(text: string)
    ensures var b := Finish(text);
            JsText.NoTripleNewline(b) && (b == [] || (!JsText.IsWhitespace(b[0]) && !JsText.IsWhitespace(b[|b| - 1])))
  {
    var c := JsText.CollapseBlankRuns(text);
    JsText.TrimEnds(c);
    JsText.NoTripleNewlineWindow(c, JsText.TrimOffset(c), JsText.TrimOffset(c) + |JsText.Trim(c)|);
  }

  /** The body has no run of three newlines and no white space at either end. */
  lemma BodyIsTidy(collectionName: string, ns: seq<Notification>)
    ensures var b := Body(collectionName, ns);
            JsText.NoTripleNewline(b) && (b == [] || (!JsText.IsWhitespace(b[0]) && !JsText.IsWhitespace(b[|b| - 1])))
  {
    FinishIsTidy(JsText.Join(OpeningLines(collectionName, |ns|) + Entries(Cleaned(ns)), "\n"));
  }

  /** The entries of two runs of cleaned messages, one after the other. */
  lemma {:induction false} EntriesAppend(a: seq<string>, b: seq<string>)
    ensures Entries(a + b) == Entries(a) + Entries(b)
    decreases |b|
  {
    if b == [] {
      assert a + b == a;
    } else {
      var b', x := b[..|b| - 1], b[|b| - 1];
      assert (a + b)[..|a + b| - 1] == a + b';
      assert (a + b)[|a + b| - 1] == x;
      EntriesAppend(a, b');
    }
  }

  /** Cleaned message `k` is notification `k`'s message, cleaned. */
  lemma {:induction false} CleanedAt(ns: seq<Notification>, k: nat)
    requires k < |ns|
    ensures Cleaned(ns)[k] == CleanMessage(ns[k].message)
    decreases |ns|
  {
    if k < |ns| - 1 {
      CleanedAt(ns[..|ns| - 1], k);
    }
  }

  /** The entries are empty exactly when every cleaned message is; otherwise they open with a non-empty one. */
  lemma {:induction false} EntriesHead(cs: seq<string>)
    ensures Entries(cs) == [] <==> forall k :: 0 <= k < |cs| ==> cs[k] == ""
    ensures Entries(cs) != [] ==> Entries(cs)[0] != "" && Entries(cs)[0] in cs
    decreases |cs|
  {
    if cs != [] {
      var init, last := cs[..|cs| - 1], cs[|cs| - 1];
      EntriesHead(init);
      assert forall k :: 0 <= k < |init| ==> init[k] == cs[k];
      assert cs == init + [last];
    }
  }

  /** A non-empty cleaned message starts with a character that is not white space. */
  lemma CleanStartsWell(message: string)
    requires CleanMessage(message) != ""
    ensures !JsText.IsWhitespace(CleanMessage(message)[0])
  {
    var tidy := TidyLines(message);
    var lines := DropHeader(tidy);
    TidyLinesAreTrimmed(message);
    assert lines != [];
    assert lines[0] == tidy[if |tidy| > 0 && HeaderLike(tidy[0]) then 1 else 0];
    JsText.TrimEnds(lines[0]);
    JsText.JoinFirst(lines, "\n");
  }

  /** The opening of every batch body: the title line, a line break, the count line. */
  function Opening(collectionName: string, count: nat): string {
    TitleLine(collectionName) + "\n" + CountLine(count)
  }

  /** Both opening lines are single lines, and the opening starts and ends with a visible character. */
  lemma OpeningFacts(collectionName: string, count: nat)
    requires '\n' !in collectionName
    ensures var l1, l2 := TitleLine(collectionName), CountLine(count);
            && '\n' !in l1 && '\n' !in l2 && l2 != []
            && Opening(collectionName, count) == l1 + ("\n" + l2)
    ensures var p := Opening(collectionName, count);
            p != [] && !JsText.IsWhitespace(p[0]) && !JsText.IsWhitespace(p[|p| - 1])
  {
    var p := Opening(collectionName, count);
    assert p[0] == '【' && p[|p| - 1] == '件';
  }

  /** No entries exactly when every cleaned message is empty; otherwise the first entry starts visibly. */
  lemma EntriesOfNotifications(ns: seq<Notification>)
    ensures var e := Entries(Cleaned(ns));
            e == [] <==> forall k :: 0 <= k < |ns| ==> CleanMessage(ns[k].message) == ""
    ensures var e := Entries(Cleaned(ns));
            e != [] ==> e[0] != [] && !JsText.IsWhitespace(e[0][0])
  {
    var cs := Cleaned(ns);
    var e := Entries(cs);
    EntriesHead(cs);
    forall k | 0 <= k < |ns| ensures cs[k] == CleanMessage(ns[k].message) {
      CleanedAt(ns, k);
    }
    if e != [] {
      var k :| 0 <= k < |cs| && cs[k] == e[0];
      CleanStartsWell(ns[k].message);
    }
  }

  /** An empty cleaned message anywhere adds nothing. */
  lemma EntriesSkipEmpty(cs: seq<string>, k: nat)
    requires k < |cs| && cs[k] == ""
    ensures Entries(cs) == Entries(cs[..k] + cs[k + 1..])
  {
    var a, b := cs[..k], cs[k + 1..];
    SplitAround(cs, k);
    EntriesAppend(a + [""], b);
    EntriesSnoc(a, "");
    EntriesAppend(a, b);
  }

  lemma SplitAround(cs: seq<string>, k: nat)
    requires k < |cs|
    ensures cs == (cs[..k] + [cs[k]]) + cs[k + 1..]
  {
  }

  /** A notification whose cleaned message is empty adds no line to the body, not even a blank one. */
  lemma EmptyMessageAddsNothing(ns: seq<Notification>, k: nat)
    requires k < |ns| && CleanMessage(ns[k].message) == ""
    ensures Entries(Cleaned(ns)) == Entries(Cleaned(ns)[..k] + Cleaned(ns)[k + 1..])
  {
    CleanedAt(ns, k);
    EntriesSkipEmpty(Cleaned(ns), k);
  }

  lemma DotsOfLetters(s: string)
    requires s != [] && forall k :: 0 <= k < |s| ==> Events.IsAsciiLetter(s[k])
    ensures Dots(s)
  {
    if |s| > 1 {
      DotsOfLetters(s[1..]);
    }
  }

  lemma DigitsAndCommasOf(s: string)
    requires s != [] && forall k :: 0 <= k < |s| ==> JsText.IsGroupedChar(s[k])
    ensures DigitsAndCommas(s)
  {
    if |s| > 1 {
      DigitsAndCommasOf(s[1..]);
    }
  }

  lemma DigitsOf(s: string)
    requires s != [] && forall k :: 0 <= k < |s| ==> JsText.IsDigit(s[k])
    ensures Digits(s)
  {
    if |s| > 1 {
      DigitsOf(s[1..]);
    }
  }

  /** Every header `【<event>】¥<price> 在庫<stock>` watch.js and oneshot.js write matches the header pattern. */
  lemma HeaderLineIsHeaderLike(e: Events.EventType, priceYen: nat, totalStock: nat)
    ensures HeaderLike(Events.HeaderLine(Events.Name(e), priceYen, totalStock))
  {
    var name := Events.Name(e);
    var g := JsText.Grouped(priceYen);
    var d := JsText.IntToDecimal(totalStock);
    var line := Events.HeaderLine(name, priceYen, totalStock);
    assert line == "【" + name + "】¥" + g + " 在庫" + d;
    var i := 1 + |name|;
    var j := i + 2 + |g|;
    assert line[1..i] == name;
    assert line[i..i + 2] == "】¥";
    assert line[i + 2..j] == g;
    assert line[j..j + 3] == " 在庫";
    assert line[j + 3..] == d;
    DotsOfLetters(name);
    DigitsAndCommasOf(g);
    assert forall k :: 0 <= k < |d| ==> JsText.IsDigit(d[k]);
    DigitsOf(d);
    assert HeaderAt(line, i, j);
    SearchFinds(line, 0, 0, i, j);
  }

  /** The search finds a split point at or after where it starts. */
  lemma {:induction false} SearchFinds(line: string, i: nat, j: nat, i0: nat, j0: nat)
    requires i0 < |line| && j0 < |line| && HeaderAt(line, i0, j0)
    requires i < i0 || (i == i0 && j <= j0)
    ensures HeaderSearch(line, i, j)
    decreases |line| - i, |line| - j
  {
    if i == i0 && j == j0 {
    } else if j >= |line| {
      SearchFinds(line, i + 1, 0, i0, j0);
    } else if !HeaderAt(line, i, j) {
      SearchFinds(line, i, j + 1, i0, j0);
    }
  }

  /** The search succeeds only at a real split point. */
  lemma {:induction false} SearchSound(line: string, i: nat, j: nat)
    requires HeaderSearch(line, i, j)
    ensures exists i0, j0 | 0 <= i0 < |line| && 0 <= j0 < |line| :: HeaderAt(line, i0, j0)
    decreases |line| - i, |line| - j
  {
    if j >= |line| {
      SearchSound(line, i + 1, 0);
    } else if !HeaderAt(line, i, j) {
      SearchSound(line, i, j + 1);
    }
  }

  /** A line is header-like exactly when it splits as `【 .+ 】¥ [\d,]+ ␠在庫 \d+`. */
  lemma HeaderLikeMeans(line: string)
    ensures HeaderLike(line) <==> exists i, j | 0 <= i < |line| && 0 <= j < |line| :: HeaderAt(line, i, j)
  {
    if HeaderLike(line) {
      SearchSound(line, 0, 0);
    }
    if exists i, j | 0 <= i < |line| && 0 <= j < |line| :: HeaderAt(line, i, j) {
      var i, j :| 0 <= i < |line| && 0 <= j < |line| && HeaderAt(line, i, j);
      SearchFinds(line, 0, 0, i, j);
    }
  }

  /** `TidyLines` of a first line that trimming leaves alone, followed by more text. */
  lemma TidyLinesCons(h: string, tail: string)
    requires h != [] && '\n' !in h && JsText.Trim(h) == h
    ensures TidyLines(h + "\n" + tail) == [h] + TidyLines(tail)
  {
    JsText.SplitCons(h, tail, '\n');
    var parts := JsText.Split(tail, '\n');
    assert JsText.TrimAll([h] + parts) == [h] + JsText.TrimAll(parts);
    assert ([h] + JsText.TrimAll(parts))[1..] == JsText.TrimAll(parts);
  }

  /**
   * A message that starts with a watch.js/oneshot.js header line loses exactly
   * that line: what is left is the rest of the message, cleaned.
   */
  lemma HeaderNeverSurvives(e: Events.EventType, priceYen: nat, totalStock: nat, tail: string)
    ensures CleanMessage(Events.HeaderLine(Events.Name(e), priceYen, totalStock) + "\n" + tail)
            == JsText.Join(TidyLines(tail), "\n")
  {
    var h := Events.HeaderLine(Events.Name(e), priceYen, totalStock);
    HeaderLineIsHeaderLike(e, priceYen, totalStock);
    HeaderChars(e, priceYen, totalStock);
    TidyLinesCons(h, tail);
    assert ([h] + TidyLines(tail))[1..] == TidyLines(tail);
  }

  /** A text none of whose characters is a line break does not contain one. */
  lemma NoNewline(s: string)
    requires forall k :: 0 <= k < |s| ==> s[k] != '\n'
    ensures '\n' !in s
  {
  }

  /** A header line is one line that trimming leaves alone. */
  lemma HeaderChars(e: Events.EventType, priceYen: nat, totalStock: nat)
    ensures var h := Events.HeaderLine(Events.Name(e), priceYen, totalStock);
            h != [] && '\n' !in h && JsText.Trim(h) == h
  {
    var name := Events.Name(e);
    var g := JsText.Grouped(priceYen);
    var d := JsText.IntToDecimal(totalStock);
    var h := Events.HeaderLine(name, priceYen, totalStock);
    assert h == "【" + name + "】¥" + g + " 在庫" + d;
    assert '\n' !in name by { NoNewline(name); }
    assert '\n' !in g by { NoNewline(g); }
    assert '\n' !in d by { NoNewline(d); }
    assert h[|h| - 1] == d[|d| - 1];
    JsText.TrimUnchanged(h);
  }
}
