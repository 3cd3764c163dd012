/**
 * The part of WHATWG URL parsing the watcher depends on: whether a text is an
 * absolute `scheme://host...` URL (otherwise `new URL` throws) and the path
 * segments `url.pathname.split('/').filter(Boolean)`.
 */
module Url {
  import opened Wrappers
  import JsText

  /** Position of the first "://" at or after `from`, preceded by a non-empty scheme. */
  function SchemeSeparator(s: string, from: nat): (r: Option<nat>)
    requires from >= 1
    ensures r.Some? ==> from <= r.value && r.value + 3 <= |s| && s[r.value..r.value + 3] == "://"
    decreases |s| - from
  {
    if from + 3 > |s| then None
    else if s[from..from + 3] == "://" then Some(from)
    else SchemeSeparator(s, from + 1)
  }

  /** Index of the first character of `s` in `stops`, or `|s|`. */
  function FirstOf(s: string, stops: set<char>): (i: nat)
    ensures i <= |s| && (i < |s| ==> s[i] in stops)
    ensures forall j :: 0 <= j < i ==> s[j] !in stops
  {
    if s == [] || s[0] in stops then 0 else 1 + FirstOf(s[1..], stops)
  }

  /**
   * `new URL(url).pathname`, or None where `new URL(url)` throws: the text
   * must have a scheme, "://" and a non-empty host; the path runs from the
   * first '/' after the host to the first '?' or '#', and is "/" when empty.
   */
  function Pathname(url: string): (r: Option<string>)
    ensures r.Some? ==> r.value != [] && r.value[0] == '/'
    ensures r.Some? ==> '?' !in r.value && '#' !in r.value
  {
    match SchemeSeparator(url, 1)
    case None => None
    case Some(i) =>
      var rest := url[i + 3..];
      var hostEnd := FirstOf(rest, {'/', '?', '#'});
      if hostEnd == 0 then None
      else
        var tail := rest[hostEnd..];
        var pathEnd := FirstOf(tail, {'?', '#'});
        if pathEnd == 0 then Some("/")
        else
          var path := tail[..pathEnd];
          assert path[0] == tail[0] == rest[hostEnd] == '/';
          assert forall j :: 0 <= j < |path| ==> path[j] == tail[j];
          Some(path)
  }

  /** `new URL(url).pathname.split('/').filter(Boolean)`, or None where `new URL` throws. */
  function PathSegments(url: string): (r: Option<seq<string>>)
    ensures r.Some? ==> forall k :: 0 <= k < |r.value| ==> r.value[k] != [] && '/' !in r.value[k]
  {
    match Pathname(url)
    case None => None
    case Some(path) =>
      var parts := JsText.Split(path, '/');
      var segs := JsText.NonEmptyParts(parts);
      JsText.SplitFacts(path, '/');
      JsText.NonEmptyPartsFacts(parts);
      assert forall k :: 0 <= k < |segs| ==> segs[k] in parts;
      Some(segs)
  }
}
