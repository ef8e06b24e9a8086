/** The tolerant reading of a completion shared by both chat controllers:
    strip a Markdown code fence, trim, hand the text to JSON.parse, and
    fall back to a fixed object when parsing throws. */
module Normalizer {

  import opened Wrappers
  import opened JsValues
  import opened Text

  const Fence: string := "```"

  function LowerAscii(c: char): char {
    if 'A' <= c <= 'Z' then (c as int + 32) as char else c
  }

  /** Equality under the `/i` flag for an ASCII pattern: only ASCII letters
      fold. */
  predicate SameIgnoringAsciiCase(a: string, b: string) {
    |a| == |b| && forall i :: 0 <= i < |a| ==> LowerAscii(a[i]) == LowerAscii(b[i])
  }

  /** The text opens with a fence tagged `json` in any letter case. */
  predicate OpensWithJsonFence(s: string) {
    |s| >= 7 && s[..3] == Fence && SameIgnoringAsciiCase(s[3..7], "json")
  }

  /** `.replace(/^```json\s*\/i, '')`: the tagged opener and all whitespace
      after it. */
  function StripJsonOpener(s: string): (r: string)
    ensures OpensWithJsonFence(s) ==> r == TrimStart(s[7..])
    ensures !OpensWithJsonFence(s) ==> r == s
  {
    if OpensWithJsonFence(s) then TrimStart(s[7..]) else s
  }

  /** `.replace(/^```/, '')`. */
  function StripOpener(s: string): (r: string)
    ensures StartsWith(s, Fence) ==> Fence + r == s
    ensures !StartsWith(s, Fence) ==> r == s
  {
    if StartsWith(s, Fence) then s[3..] else s
  }

  /** `.replace(/```$/, '')`: without the `m` flag `$` is the very end of
      the text, so only a fence in the last three characters goes. */
  function StripCloser(s: string): (r: string)
    ensures EndsWith(s, Fence) ==> r + Fence == s
    ensures !EndsWith(s, Fence) ==> r == s
  {
    if EndsWith(s, Fence) then s[..|s| - 3] else s
  }

  /** The cleaned text handed to JSON.parse: the three replacements in
      order, then `trim`. */
  function Clean(s: string): (r: string)
    ensures !StartsWith(s, Fence) && !EndsWith(s, Fence) ==> r == Trim(s)
  {
    UnfencedUnchanged(s);
    Trim(StripCloser(StripOpener(StripJsonOpener(s))))
  }

  /** Text neither opening nor closing with a fence passes the three
      replacements unchanged. */
  lemma UnfencedUnchanged(s: string)
    ensures !StartsWith(s, Fence) && !EndsWith(s, Fence) ==> StripCloser(StripOpener(StripJsonOpener(s))) == s
  {
    if !StartsWith(s, Fence) {
      assert !OpensWithJsonFence(s);
    }
  }

  /** A body wrapped the way a chat model usually fences JSON. */
  function Fenced(tag: string, body: string): string {
    Fence + tag + "\n" + body + "\n" + Fence
  }

  lemma TrimStartKeeps(s: string)
    requires |s| > 0 && !IsJsSpace(s[0])
    ensures TrimStart(s) == s
  {
  }

  lemma OpenerOfFenced(tag: string, body: string)
    requires SameIgnoringAsciiCase(tag, "json")
    requires |body| > 0 && body[0] == '{'
    ensures StripJsonOpener(Fenced(tag, body)) == body + "\n" + Fence
  {
    var s := Fenced(tag, body);
    var rest := body + "\n" + Fence;
    assert s == Fence + tag + ("\n" + rest);
    assert s[..3] == Fence && s[3..7] == tag;
    assert s[7..] == "\n" + rest;
    TrimStartKeeps(rest);
  }

  lemma CloserOfFenced(body: string)
    requires |body| > 0 && body[0] == '{'
    ensures StripOpener(body + "\n" + Fence) == body + "\n" + Fence
    ensures StripCloser(body + "\n" + Fence) == body + "\n"
  {
    var t := body + "\n" + Fence;
    assert t[0] == '{';
    assert t[..|t| - 3] == body + "\n";
  }

  lemma TrimNewline(body: string)
    requires |body| > 0 && body[0] == '{'
    ensures Trim(body + "\n") == Trim(body)
  {
    TrimStartKeeps(body + "\n");
    TrimStartKeeps(body);
    TrimEndIgnoresTrailingSpace(body, '\n');
  }

  /** Fencing a JSON object body is undone by cleaning: the parser sees the
      trimmed body, exactly what it would see for the unfenced text. */
  lemma {:induction false} CleanFenced(tag: string, body: string)
    requires SameIgnoringAsciiCase(tag, "json")
    requires |body| > 0 && body[0] == '{'
    ensures Clean(Fenced(tag, body)) == Trim(body)
    ensures !EndsWith(body, Fence) ==> Clean(Fenced(tag, body)) == Clean(body)
  {
    OpenerOfFenced(tag, body);
    CloserOfFenced(body);
    TrimNewline(body);
  }

  /** The parse step: JSON.parse of the cleaned text, or `fallback` when it
      throws. */
  function ParseCompletion(raw: string, parse: string -> Option<JsVal>, fallback: JsVal): (r: JsVal)
    ensures parse(Clean(raw)).Some? ==> r == parse(Clean(raw)).value
    ensures parse(Clean(raw)).None? ==> r == fallback
  {
    parse(Clean(raw)).GetOr(fallback)
  }
}
