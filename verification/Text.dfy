/** The few string operations the agent and the server share, on `string` as a sequence of characters. */
module Text {

  /** The characters Go's `unicode.IsSpace` accepts. */
  predicate IsSpace(c: char) {
    c == ' ' || '\U{0009}' <= c <= '\U{000D}' || c == '\U{0085}' || c == '\U{00A0}' || c == '\U{1680}'
    || '\U{2000}' <= c <= '\U{200A}' || c == '\U{2028}' || c == '\U{2029}' || c == '\U{202F}'
    || c == '\U{205F}' || c == '\U{3000}'
  }

  /** `strings.TrimSpace` */
  function TrimSpace(s: string): (r: string)
    ensures r != "" ==> !IsSpace(r[0]) && !IsSpace(r[|r| - 1])
    ensures |r| <= |s|
  {
    if s == "" then ""
    else if IsSpace(s[0]) then TrimSpace(s[1..])
    else if IsSpace(s[|s| - 1]) then TrimSpace(s[..|s| - 1])
    else s
  }

  /** `strings.TrimSpace(s) == ""` */
  predicate Blank(s: string) {
    TrimSpace(s) == ""
  }

  lemma {:induction false} BlankIffAllSpace(s: string)
    ensures Blank(s) <==> forall i :: 0 <= i < |s| ==> IsSpace(s[i])
  {
    if s != "" && IsSpace(s[0]) {
      BlankIffAllSpace(s[1..]);
      assert forall i :: 1 <= i < |s| ==> s[i] == s[1..][i - 1];
    } else if s != "" && IsSpace(s[|s| - 1]) {
      BlankIffAllSpace(s[..|s| - 1]);
      assert s[..|s| - 1][0] == s[0];
    }
  }

  /** Lower case as far as it can matter for a comparison with an ASCII word: the ASCII letters and the two
      other characters whose lower-case form is an ASCII letter. */
  function ToLowerChar(c: char): char {
    if 'A' <= c <= 'Z' then (c as int + 32) as char
    else if c == '\U{0130}' then 'i'
    else if c == '\U{212A}' then 'k'
    else c
  }

  function ToLower(s: string): string {
    seq(|s|, i requires 0 <= i < |s| => ToLowerChar(s[i]))
  }

  /** `strings.EqualFold(s, word)` for a word of lower-case ASCII letters other than k and s. */
  predicate EqualFoldAscii(s: string, word: string) {
    |s| == |word| && forall i :: 0 <= i < |s| ==>
      s[i] == word[i] || ('A' <= s[i] <= 'Z' && (s[i] as int + 32) as char == word[i])
  }

  /** `strings.Contains(s, part)` */
  predicate Contains(s: string, part: string) {
    exists i :: 0 <= i <= |s| && OccursAt(s, part, i)
  }

  predicate OccursAt(s: string, part: string, i: nat)
    requires i <= |s|
  {
    part <= s[i..]
  }

  /** `COALESCE(NULLIF(incoming, ''), existing)` */
  function OrElse(incoming: string, existing: string): string {
    if incoming != "" then incoming else existing
  }
}
