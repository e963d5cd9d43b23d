/** Text helpers shared by every builder: `Vec::join` and counting occurrences of a character. */
module Strings {

  /** `parts.join(sep)`: the parts in order, with `sep` between neighbours; "" for no parts. */
  function Join(parts: seq<string>, sep: string): string
  {
    if |parts| == 0 then ""
    else if |parts| == 1 then parts[0]
    else parts[0] + sep + Join(parts[1..], sep)
  }

  /** Number of positions of `s` that hold `c`. */
  function Occurrences(c: char, s: string): nat
  {
    multiset(s)[c]
  }

  /** Sum of the occurrences of `c` over a list of texts. */
  function TotalOccurrences(c: char, parts: seq<string>): nat
  {
    if |parts| == 0 then 0 else Occurrences(c, parts[0]) + TotalOccurrences(c, parts[1..])
  }

  /** A separator without `c` adds no occurrence of `c`: the joined text holds exactly the parts' ones. */
  lemma {:induction false} JoinOccurrences(c: char, parts: seq<string>, sep: string)
    requires Occurrences(c, sep) == 0
    ensures Occurrences(c, Join(parts, sep)) == TotalOccurrences(c, parts)
  {
    if |parts| == 1 {
      assert parts[1..] == [];
    } else if |parts| > 1 {
      JoinOccurrences(c, parts[1..], sep);
    }
  }

  /** Appending one part to a non-empty list appends the separator and that part to the joined text. */
  lemma {:induction false} JoinSnoc(parts: seq<string>, last: string, sep: string)
    requires |parts| > 0
    ensures Join(parts + [last], sep) == Join(parts, sep) + sep + last
  {
    if |parts| == 1 {
      assert (parts + [last])[1..] == [last];
    } else {
      assert (parts + [last])[1..] == parts[1..] + [last];
      JoinSnoc(parts[1..], last, sep);
    }
  }

  /** The joined text starts with the first part. */
  lemma JoinStartsWithFirst(parts: seq<string>, sep: string)
    requires |parts| > 0
    ensures |parts[0]| <= |Join(parts, sep)| && Join(parts, sep)[..|parts[0]|] == parts[0]
  {
    if |parts| > 1 {
      var rest := sep + Join(parts[1..], sep);
      assert Join(parts, sep) == parts[0] + rest;
      assert (parts[0] + rest)[..|parts[0]|] == parts[0];
    }
  }
}
