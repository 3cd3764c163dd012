/**
 * The opening of the mail body `sendBatchEmail` builds (src/email.js:65-69):
 * the title line and the count line survive the blank-run collapse and the
 * trim, followed by a blank line when some notification's cleaned message is
 * non-empty.
 */
module EmailOpening {
  import JsText
  import Email

  /** Joining the opening lines and the entries: one break after each line, two before the first entry. */
  lemma JoinOpening(l1: string, l2: string, e: seq<string>)
    ensures JsText.Join([l1, l2, ""] + e, "\n")
            == l1 + ("\n" + (l2 + (if e == [] then "\n" + "" else "\n\n" + JsText.Join(e, "\n"))))
  {
    var ls := [l1, l2, ""] + e;
    var last := JsText.Join([""] + e, "\n");
    assert ls[1..] == [l2, ""] + e;
    assert ls[1..][1..] == [""] + e;
    assert JsText.Join(ls, "\n") == l1 + ("\n" + (l2 + ("\n" + last)));
    if e == [] {
      assert last == "";
    } else {
      assert ([""] + e)[1..] == e;
      assert last == "" + "\n" + JsText.Join(e, "\n");
    }
  }

  /** The collapse keeps two lines and the one or two line breaks after them as they are. */
  lemma CollapseOpening(l1: string, l2: string, brk: string, y: string)
    requires '\n' !in l1 && '\n' !in l2 && l2 != []
    requires brk == "\n" || brk == "\n\n"
    requires y == [] || y[0] != '\n'
    ensures JsText.CollapseBlankRuns(l1 + ("\n" + (l2 + (brk + y))))
            == l1 + ("\n" + (l2 + (brk + JsText.CollapseBlankRuns(y))))
  {
    JsText.ShortRunKept(brk, y);
    JsText.CollapseAfterLine(l2, brk + y);
    assert (l2 + (brk + y))[0] == l2[0];
    JsText.ShortRunKept("\n", l2 + (brk + y));
    JsText.CollapseAfterLine(l1, "\n" + (l2 + (brk + y)));
  }

  /** Trimming drops a final line break after text that ends in a visible character. */
  lemma TrimDropsFinalBreak(p: string)
    requires p != [] && !JsText.IsWhitespace(p[0]) && !JsText.IsWhitespace(p[|p| - 1])
    ensures JsText.Trim(p + "\n") == p
  {
    var c := p + "\n";
    assert JsText.TrimStart(c) == c;
    assert c[..|c| - 1] == p;
    JsText.TrimUnchanged(p);
    assert JsText.TrimStart(p) == p;
  }

  /** Trimming keeps a blank line that has visible text on both sides. */
  lemma TrimKeepsBlankLine(p: string, z: string)
    requires p != [] && !JsText.IsWhitespace(p[0])
    requires z != [] && !JsText.IsWhitespace(z[0])
    ensures var t := JsText.Trim(p + "\n\n" + z);
            |t| > |p| + 2 && t[..|p|] == p && t[|p|..|p| + 2] == "\n\n" && t[|p| + 2] == z[0]
  {
    var c := p + "\n\n" + z;
    assert JsText.TrimStart(c) == c;
    JsText.TrimEndFacts(c);
    assert c[|p| + 2] == z[0];
  }

  /**
   * The body opens with the title line and the count of notifications. When
   * some notification's cleaned message is non-empty, a blank line follows;
   * otherwise the body is just those two lines.
   */
  lemma BodyOpens(collectionName: string, ns: seq<Email.Notification>)
    requires '\n' !in collectionName
    ensures var p := Email.Opening(collectionName, |ns|);
            var b := Email.Body(collectionName, ns);
            && |b| >= |p| && b[..|p|] == p
            && ((exists k :: 0 <= k < |ns| && Email.CleanMessage(ns[k].message) != "")
                ==> |b| > |p| + 2 && b[|p|..|p| + 2] == "\n\n" && !JsText.IsWhitespace(b[|p| + 2]))
            && ((forall k :: 0 <= k < |ns| ==> Email.CleanMessage(ns[k].message) == "") ==> b == p)
  {
    Email.EntriesOfNotifications(ns);
    BodyOpensOnEntries(collectionName, ns);
  }

  /** `BodyOpens`, told by whether the body has entries. */
  lemma BodyOpensOnEntries(collectionName: string, ns: seq<Email.Notification>)
    requires '\n' !in collectionName
    ensures var p := Email.Opening(collectionName, |ns|);
            var b := Email.Body(collectionName, ns);
            var e := Email.Entries(Email.Cleaned(ns));
            && |b| >= |p| && b[..|p|] == p
            && (e != [] ==> |b| > |p| + 2 && b[|p|..|p| + 2] == "\n\n" && !JsText.IsWhitespace(b[|p| + 2]))
            && (e == [] ==> b == p)
  {
    var e := Email.Entries(Email.Cleaned(ns));
    Email.EntriesOfNotifications(ns);
    BodyLayout(collectionName, ns);
    if e == [] {
      FinishBareOpening(collectionName, |ns|, e);
    } else {
      FinishOpeningWithEntries(collectionName, |ns|, e);
    }
  }

  /** The body is the finished text of the opening lines and the entries. */
  lemma BodyLayout(collectionName: string, ns: seq<Email.Notification>)
    ensures Email.Body(collectionName, ns)
            == Email.Finish(JsText.Join(Email.OpeningLines(collectionName, |ns|) + Email.Entries(Email.Cleaned(ns)), "\n"))
  {
  }

  /** With no entries the finished text is the opening itself. */
  lemma FinishBareOpening(collectionName: string, count: nat, e: seq<string>)
    requires '\n' !in collectionName && e == []
    ensures Email.Finish(JsText.Join(Email.OpeningLines(collectionName, count) + e, "\n")) == Email.Opening(collectionName, count)
  {
    assert Email.OpeningLines(collectionName, count) + e == Email.OpeningLines(collectionName, count);
    var l1, l2 := Email.TitleLine(collectionName), Email.CountLine(count);
    var p := Email.Opening(collectionName, count);
    Email.OpeningFacts(collectionName, count);
    JoinOpening(l1, l2, []);
    assert [l1, l2, ""] + [] == [l1, l2, ""];
    CollapseOpening(l1, l2, "\n", "");
    assert l1 + ("\n" + (l2 + ("\n" + ""))) == p + "\n";
    TrimDropsFinalBreak(p);
  }

  /** Entries that start visibly follow the finished opening after one blank line. */
  lemma FinishOpeningWithEntries(collectionName: string, count: nat, e: seq<string>)
    requires '\n' !in collectionName
    requires e != [] && e[0] != [] && !JsText.IsWhitespace(e[0][0])
    ensures var p := Email.Opening(collectionName, count);
            var b := Email.Finish(JsText.Join(Email.OpeningLines(collectionName, count) + e, "\n"));
            |b| > |p| + 2 && b[..|p|] == p && b[|p|..|p| + 2] == "\n\n" && !JsText.IsWhitespace(b[|p| + 2])
  {
    var l1, l2 := Email.TitleLine(collectionName), Email.CountLine(count);
    Email.OpeningFacts(collectionName, count);
    FinishedLayout(collectionName, count, e);
    LinesThenEntries(l1, l2, e);
  }

  /** The finished text of the opening lines and entries, written out. */
  lemma FinishedLayout(collectionName: string, count: nat, e: seq<string>)
    ensures Email.Finish(JsText.Join(Email.OpeningLines(collectionName, count) + e, "\n"))
            == JsText.Trim(JsText.CollapseBlankRuns(JsText.Join(
                 [Email.TitleLine(collectionName), Email.CountLine(count), ""] + e, "\n")))
  {
  }

  /** Two single lines, a blank line, then entries that start visibly: the finish keeps that layout. */
  lemma LinesThenEntries(l1: string, l2: string, e: seq<string>)
    requires '\n' !in l1 && '\n' !in l2 && l2 != []
    requires var p := l1 + ("\n" + l2); p != [] && !JsText.IsWhitespace(p[0])
    requires e != [] && e[0] != [] && !JsText.IsWhitespace(e[0][0])
    ensures var p := l1 + ("\n" + l2);
            var b := JsText.Trim(JsText.CollapseBlankRuns(JsText.Join([l1, l2, ""] + e, "\n")));
            |b| > |p| + 2 && b[..|p|] == p && b[|p|..|p| + 2] == "\n\n" && !JsText.IsWhitespace(b[|p| + 2])
  {
    var z := CollapsedLayout(l1, l2, e);
    TrimKeepsBlankLine(l1 + ("\n" + l2), z);
  }

  /** Collapsing the joined layout keeps the two lines and the blank line; `z` is what follows. */
  lemma CollapsedLayout(l1: string, l2: string, e: seq<string>) returns (z: string)
    requires '\n' !in l1 && '\n' !in l2 && l2 != []
    requires e != [] && e[0] != [] && !JsText.IsWhitespace(e[0][0])
    ensures z != [] && !JsText.IsWhitespace(z[0])
    ensures JsText.CollapseBlankRuns(JsText.Join([l1, l2, ""] + e, "\n")) == l1 + ("\n" + l2) + "\n\n" + z
  {
    JoinOpening(l1, l2, e);
    var y := JsText.Join(e, "\n");
    JsText.JoinFirst(e, "\n");
    CollapseOpening(l1, l2, "\n\n", y);
    z := JsText.CollapseBlankRuns(y);
    assert l1 + ("\n" + (l2 + ("\n\n" + z))) == l1 + ("\n" + l2) + "\n\n" + z;
  }
}
