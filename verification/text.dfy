/** String operations the source takes from the JavaScript runtime: `join`, `includes`, `toLowerCase`. */
module Text {

  /** `Array.prototype.join(sep)` over strings. */
  function Join(parts: seq<string>, sep: string): string
  {
    if |parts| == 0 then ""
    else if |parts| == 1 then parts[0]
    else parts[0] + sep + Join(parts[1..], sep)
  }

  /** Where the `k`-th part starts inside `Join(parts, sep)`: every earlier part and one separator after each. */
  function Offset(parts: seq<string>, sep: string, k: nat): nat
    requires k <= |parts|
  {
    if k == 0 then 0 else |parts[0]| + |sep| + Offset(parts[1..], sep, k - 1)
  }

  /**
   * From the offset of part `k` on, the joined string is the join of the remaining
   * parts: it starts with part `k`, followed by the separator when more parts come,
   * so the parts appear in their original order, separated by `sep`.
   */
  lemma {:induction false} JoinAt(parts: seq<string>, sep: string, k: nat)
    requires k < |parts|
    ensures Offset(parts, sep, k) <= |Join(parts, sep)|
    ensures Join(parts, sep)[Offset(parts, sep, k)..] == Join(parts[k..], sep)
    ensures parts[k] <= Join(parts, sep)[Offset(parts, sep, k)..]
    ensures k + 1 < |parts| ==> parts[k] + sep <= Join(parts, sep)[Offset(parts, sep, k)..]
    ensures k + 1 == |parts| ==> Join(parts, sep)[Offset(parts, sep, k)..] == parts[k]
  {
    var j := Join(parts, sep);
    if k == 0 {
      assert parts[0..] == parts;
    } else {
      var tail := parts[1..];
      var h := |parts[0]| + |sep|;
      assert j == parts[0] + sep + Join(tail, sep);
      assert j[h..] == Join(tail, sep);
      JoinAt(tail, sep, k - 1);
      assert tail[k - 1..] == parts[k..];
      var o := Offset(tail, sep, k - 1);
      assert j[h + o..] == j[h..][o..];
    }
    var rest := parts[k..];
    assert rest[0] == parts[k];
    if k + 1 < |parts| {
      assert Join(rest, sep) == parts[k] + sep + Join(rest[1..], sep);
    }
  }

  /** `s.includes(w)`: `w` occurs in `s` at some position. */
  predicate Contains(s: string, w: string) {
    exists i | 0 <= i <= |s| :: w <= s[i..]
  }

  /** A string occurs in any string that has it at a known position. */
  lemma ContainsAt(s: string, w: string, i: nat)
    requires i <= |s| && w <= s[i..]
    ensures Contains(s, w)
  {
  }

  /** An occurrence inside the middle part is an occurrence in the whole. */
  lemma ContainsInfix(prefix: string, middle: string, suffix: string, w: string)
    requires Contains(middle, w)
    ensures Contains(prefix + middle + suffix, w)
  {
    var i :| 0 <= i <= |middle| && w <= middle[i..];
    var whole := prefix + middle + suffix;
    assert whole[|prefix| + i..] == middle[i..] + suffix;
    ContainsAt(whole, w, |prefix| + i);
  }

  /**
   * `toLowerCase` for the scripts the source compares against: Basic Latin and the
   * Russian Cyrillic alphabet (А..Я and Ё); every other character is left as it is.
   */
  function LowerChar(c: char): (d: char)
    ensures !('A' <= d <= 'Z') && !('А' <= d <= 'Я') && d != 'Ё'
    ensures 'A' <= c <= 'Z' || 'А' <= c <= 'Я' ==> d as int == c as int + 32
    ensures c == 'Ё' ==> d == 'ё'
    ensures !('A' <= c <= 'Z') && !('А' <= c <= 'Я') && c != 'Ё' ==> d == c
  {
    if 'A' <= c <= 'Z' then (c as int + 32) as char
    else if 'А' <= c <= 'Я' then (c as int + 32) as char
    else if c == 'Ё' then 'ё'
    else c
  }

  function Lower(s: string): (r: string)
    ensures |r| == |s|
    ensures forall i :: 0 <= i < |s| ==> r[i] == LowerChar(s[i])
  {
    seq(|s|, i requires 0 <= i < |s| => LowerChar(s[i]))
  }

  /** Lowering works piece by piece: the lower case of a concatenation is the concatenation of the lower cases. */
  lemma LowerAppend(a: string, b: string)
    ensures Lower(a + b) == Lower(a) + Lower(b)
  {
    assert forall i :: 0 <= i < |a| + |b| ==> Lower(a + b)[i] == (Lower(a) + Lower(b))[i];
  }

  /** Lowering is idempotent: lowercase text is its own lower case. */
  lemma LowerIdempotent(s: string)
    ensures Lower(Lower(s)) == Lower(s)
  {
    var once := Lower(s);
    forall i | 0 <= i < |s| ensures Lower(once)[i] == once[i] {
      assert LowerChar(once[i]) == once[i];
    }
  }
}
