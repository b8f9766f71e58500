// String helpers shared by the printers: global replacement, joining, and a reader's keyword matching.
module Text {
  import opened Option

  // s.replace(/c/g, r)
  function ReplaceAll(s: string, c: char, r: string): string {
    if s == [] then [] else (if s[0] == c then r else [s[0]]) + ReplaceAll(s[1..], c, r)
  }

  function Join(parts: seq<string>, separator: string): string {
    if parts == [] then ""
    else if |parts| == 1 then parts[0]
    else parts[0] + separator + Join(parts[1..], separator)
  }

  lemma {:induction false} ReplaceConcat(a: string, b: string, c: char, r: string)
    ensures ReplaceAll(a + b, c, r) == ReplaceAll(a, c, r) + ReplaceAll(b, c, r)
  {
    if a == [] {
      assert a + b == b;
    } else {
      assert (a + b)[1..] == a[1..] + b;
      ReplaceConcat(a[1..], b, c, r);
    }
  }

  // What follows a keyword, when the input starts with it.
  function Expect(s: string, keyword: string): Option<string> {
    if keyword <= s then Some(s[|keyword|..]) else None
  }

  lemma ExpectOf(keyword: string, rest: string)
    ensures Expect(keyword + rest, keyword) == Some(rest)
  {
  }
}
