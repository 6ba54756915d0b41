/**
 * The few string operations of Go's strings and fmt packages the dashboard
 * relies on. A string is a sequence of characters, one character per byte
 * (the dashboard's texts are treated as ASCII).
 */
module Text {

  /** The six ASCII white-space bytes `strings.Fields` splits on. */
  predicate IsSpace(c: char) {
    c == ' ' || c == '\t' || c == '\n' || c == '\r' || c == '\U{B}' || c == '\U{C}'
  }

  predicate NoSpace(w: string) {
    forall i :: 0 <= i < |w| ==> !IsSpace(w[i])
  }

  /** The words joined by single spaces (`strings.Join(words, " ")`). */
  function Join(words: seq<string>): string
  {
    if |words| == 0 then ""
    else if |words| == 1 then words[0]
    else Join(words[..|words| - 1]) + " " + words[|words| - 1]
  }

  /** Appending a word to a non-empty list adds one space and the word. */
  lemma JoinSnoc(words: seq<string>, w: string)
    requires words != []
    ensures Join(words + [w]) == Join(words) + " " + w
  {
    assert (words + [w])[..|words|] == words;
  }

  /** Gluing a word onto the last line with a space does not change the joined text. */
  lemma JoinGlueLast(lines: seq<string>, cur: string, w: string)
    ensures Join(lines + [cur + " " + w]) == Join(lines + [cur] + [w])
  {
    JoinSnoc(lines + [cur], w);
    if lines == [] {
      assert lines + [cur + " " + w] == [cur + " " + w];
      assert lines + [cur] == [cur];
    } else {
      JoinSnoc(lines, cur + " " + w);
      JoinSnoc(lines, cur);
    }
  }

  /** `strings.Fields`: the maximal runs of non-space bytes, in order. */
  function Fields(s: string): (ws: seq<string>)
    ensures forall i :: 0 <= i < |ws| ==> ws[i] != [] && NoSpace(ws[i])
  {
    FieldsFrom(s, "")
  }

  /** Fields of `s`, where `acc` is the part of a word already read. */
  function FieldsFrom(s: string, acc: string): (ws: seq<string>)
    requires NoSpace(acc)
    ensures forall i :: 0 <= i < |ws| ==> ws[i] != [] && NoSpace(ws[i])
    decreases |s|
  {
    if s == [] then (if acc == [] then [] else [acc])
    else if IsSpace(s[0]) then
      (if acc == [] then FieldsFrom(s[1..], []) else [acc] + FieldsFrom(s[1..], []))
    else FieldsFrom(s[1..], acc + [s[0]])
  }

  function DigitChar(d: nat): (c: char)
    requires d < 10
    ensures '0' <= c <= '9'
  {
    ['0', '1', '2', '3', '4', '5', '6', '7', '8', '9'][d]
  }

  /** The decimal notation of `n`, as `fmt.Sprintf("%d", n)` writes it. */
  function NatToString(n: nat): (s: string)
    ensures s != [] && forall i :: 0 <= i < |s| ==> '0' <= s[i] <= '9'
  {
    if n < 10 then [DigitChar(n)] else NatToString(n / 10) + [DigitChar(n % 10)]
  }

  /** The value a string of decimal digits denotes. */
  function DigitsValue(s: string): int
    requires forall i :: 0 <= i < |s| ==> '0' <= s[i] <= '9'
  {
    if s == [] then 0 else 10 * DigitsValue(s[..|s| - 1]) + (s[|s| - 1] as int - '0' as int)
  }

  /** Reading back the decimal notation gives the number. */
  lemma {:induction false} NatToStringValue(n: nat)
    ensures DigitsValue(NatToString(n)) == n
  {
    if n >= 10 {
      NatToStringValue(n / 10);
      var s := NatToString(n);
      assert s[..|s| - 1] == NatToString(n / 10);
    }
  }

  predicate HasPrefix(s: string, p: string) {
    |p| <= |s| && s[..|p|] == p
  }

  predicate HasSuffix(s: string, p: string) {
    |p| <= |s| && s[|s| - |p|..] == p
  }

  /** `strings.LastIndex(s, string(c))`: the last position of `c`, or -1. */
  function LastIndexOf(s: string, c: char): (i: int)
    ensures -1 <= i < |s|
    ensures i >= 0 ==> s[i] == c
    ensures forall j :: i < j < |s| ==> s[j] != c
  {
    if s == [] then -1
    else if s[|s| - 1] == c then |s| - 1
    else LastIndexOf(s[..|s| - 1], c)
  }

  /** `unicode.ToUpper` on an ASCII byte: lower-case letters become upper-case. */
  function ToUpperAscii(c: char): (u: char)
    ensures 'a' <= c <= 'z' ==> 'A' <= u <= 'Z' && u as int == c as int - 32
    ensures !('a' <= c <= 'z') ==> u == c
  {
    if 'a' <= c <= 'z' then (c as int - 32) as char else c
  }
}
