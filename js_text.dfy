/** The few JavaScript string operations the consumer relies on, on
    strings as sequences of characters. */
module JsText {

  /** `s.indexOf(c)` for a one-character pattern: the first position of `c`
      in `s`, or -1 when `c` does not occur. */
  function IndexOf(s: string, c: char): (r: int)
    ensures -1 <= r < |s|
    ensures r == -1 <==> c !in s
    ensures r >= 0 ==> s[r] == c && c !in s[..r]
  {
    if s == [] then -1
    else if s[0] == c then 0
    else
      var k := IndexOf(s[1..], c);
      if k == -1 then -1
      else
        assert s[..k + 1] == [s[0]] + s[1..][..k];
        k + 1
  }

  /** `s.replace('\n', '')`: with a string pattern JavaScript removes only
      the FIRST line feed; any later ones stay in the result. */
  function StripFirstNewline(s: string): string
  {
    if s == [] then []
    else if s[0] == '\n' then s[1..]
    else [s[0]] + StripFirstNewline(s[1..])
  }

  /** StripFirstNewline removes the character at the first position of a
      line feed, and a string without one is left as it is. */
  lemma {:induction false} StripRemovesFirst(s: string)
    ensures var k := IndexOf(s, '\n');
      if k == -1 then StripFirstNewline(s) == s
      else StripFirstNewline(s) == s[..k] + s[k + 1..]
  {
    if s != [] && s[0] != '\n' {
      StripRemovesFirst(s[1..]);
      var k := IndexOf(s[1..], '\n');
      if k == -1 {
        assert [s[0]] + s[1..] == s;
      } else {
        assert s[..k + 1] == [s[0]] + s[1..][..k];
        assert s[k + 2..] == s[1..][k + 1..];
      }
    }
  }

  /** `parts.join(sep)`. */
  function Join(parts: seq<string>, sep: string): string
  {
    if parts == [] then ""
    else if |parts| == 1 then parts[0]
    else parts[0] + sep + Join(parts[1..], sep)
  }

  /** `parts` without its leading empty strings: a suffix of `parts` that
      is either empty or starts with a non-empty string, and everything
      dropped in front of it is empty. */
  function DropLeadingEmpty(parts: seq<string>): (r: seq<string>)
    ensures |r| <= |parts| && r == parts[|parts| - |r|..]
    ensures r == [] || r[0] != ""
    ensures forall j :: 0 <= j < |parts| - |r| ==> parts[j] == ""
  {
    if parts == [] || parts[0] != "" then parts
    else DropLeadingEmpty(parts[1..])
  }
}
