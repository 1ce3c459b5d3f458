/** File names of a managed import and the order in which a removal unlinks them.

    An object is named by the 64 hexadecimal digits of its content digest. An alias is the
    same digest followed by a dot and an extension. */
module Names {

  datatype Option<+T> = None | Some(value: T)

  predicate IsHexDigit(c: char) {
    '0' <= c <= '9' || 'a' <= c <= 'f' || 'A' <= c <= 'F'
  }

  predicate IsAlphanumeric(c: char) {
    '0' <= c <= '9' || 'a' <= c <= 'z' || 'A' <= c <= 'Z'
  }

  predicate ValidHash(value: string) {
    |value| == 64 && forall i :: 0 <= i < |value| ==> IsHexDigit(value[i])
  }

  predicate ValidExtension(value: string) {
    0 < |value| <= 16 && forall i :: 0 <= i < |value| ==> IsAlphanumeric(value[i])
  }

  /** The position of the first dot, or the length when there is none. */
  function Dot(name: string): (k: nat)
    ensures k <= |name|
    ensures forall i :: 0 <= i < k ==> name[i] != '.'
    ensures k < |name| ==> name[k] == '.'
  {
    if name == [] || name[0] == '.' then 0 else 1 + Dot(name[1..])
  }

  predicate IsAlias(name: string) {
    Dot(name) < |name|
  }

  function Stem(name: string): string {
    name[..Dot(name)]
  }

  predicate ValidName(name: string) {
    ValidHash(Stem(name)) && (IsAlias(name) ==> ValidExtension(name[Dot(name) + 1..]))
  }

  lemma StemOfObject(name: string)
    ensures !IsAlias(name) <==> Stem(name) == name
    ensures !IsAlias(Stem(name)) && Stem(Stem(name)) == Stem(name)
  {
    var stem := Stem(name);
    assert forall i :: 0 <= i < |stem| ==> stem[i] == name[i] != '.';
    assert Dot(stem) == |stem|;
  }

  lemma HashIsObject(hash: string)
    requires ValidHash(hash)
    ensures !IsAlias(hash) && Stem(hash) == hash && ValidName(hash)
  {
    assert Dot(hash) == |hash|;
  }

  lemma AliasParts(hash: string, extension: string)
    requires ValidHash(hash) && ValidExtension(extension)
    ensures var name := hash + "." + extension;
            IsAlias(name) && Stem(name) == hash && ValidName(name)
  {
    var name := hash + "." + extension;
    assert forall i :: 0 <= i < 64 ==> name[i] == hash[i];
    assert name[64] == '.';
    assert Dot(name) == 64;
    assert name[..64] == hash;
    assert name[65..] == extension;
  }

  /** Byte-wise lexicographic order on names. */
  predicate LexLe(a: string, b: string) {
    a == [] || (b != [] && (a[0] < b[0] || (a[0] == b[0] && LexLe(a[1..], b[1..]))))
  }

  lemma {:induction false} LexTotal(a: string, b: string)
    ensures LexLe(a, b) || LexLe(b, a)
    ensures LexLe(a, b) && LexLe(b, a) ==> a == b
  {
    if a != [] && b != [] && a[0] == b[0] {
      LexTotal(a[1..], b[1..]);
      assert a == [a[0]] + a[1..] && b == [b[0]] + b[1..];
    }
  }

  lemma {:induction false} LexTransitive(a: string, b: string, c: string)
    requires LexLe(a, b) && LexLe(b, c)
    ensures LexLe(a, c)
  {
    if a != [] && a[0] == b[0] && b[0] == c[0] {
      LexTransitive(a[1..], b[1..], c[1..]);
    }
  }

  /** Aliases come before objects; names of one kind follow the lexicographic order. */
  predicate Before(a: string, b: string) {
    if IsAlias(a) == IsAlias(b) then LexLe(a, b) else IsAlias(a)
  }

  lemma BeforeTotal(a: string, b: string)
    ensures Before(a, b) || Before(b, a)
    ensures Before(a, b) && Before(b, a) ==> a == b
  {
    LexTotal(a, b);
  }

  lemma BeforeTransitive(a: string, b: string, c: string)
    requires Before(a, b) && Before(b, c)
    ensures Before(a, c)
  {
    if IsAlias(a) == IsAlias(c) {
      LexTransitive(a, b, c);
    }
  }

  ghost predicate IsFirst(m: string, names: set<string>) {
    m in names && forall n | n in names :: Before(m, n)
  }

  lemma FirstExists(names: set<string>)
    requires names != {}
    ensures exists m :: IsFirst(m, names)
    decreases |names|
  {
    var x :| x in names;
    var rest := names - {x};
    BeforeTotal(x, x);
    if rest == {} {
      forall n | n in names ensures Before(x, n) {
        assert n !in rest;
      }
      assert IsFirst(x, names);
    } else {
      FirstExists(rest);
      var m :| IsFirst(m, rest);
      BeforeTotal(x, m);
      if Before(x, m) {
        forall n | n in names ensures Before(x, n) {
          if n != x { BeforeTransitive(x, m, n); }
        }
        assert IsFirst(x, names);
      } else {
        assert IsFirst(m, names);
      }
    }
  }

  ghost function First(names: set<string>): (m: string)
    requires names != {}
    ensures IsFirst(m, names)
  {
    FirstExists(names);
    var m :| IsFirst(m, names);
    m
  }

  /** The unlink order of a set of names. */
  ghost function Ordered(names: set<string>): (q: seq<string>)
    ensures |q| == |names|
    ensures forall n :: n in q <==> n in names
    decreases |names|
  {
    if names == {} then [] else
    var m := First(names);
    [m] + Ordered(names - {m})
  }

  ghost predicate Sorted(q: seq<string>) {
    forall i, j :: 0 <= i < j < |q| ==> Before(q[i], q[j]) && q[i] != q[j]
  }

  lemma {:induction false} OrderedIsSorted(names: set<string>)
    ensures Sorted(Ordered(names))
    decreases |names|
  {
    if names != {} {
      var m := First(names);
      OrderedIsSorted(names - {m});
      var rest := Ordered(names - {m});
      forall i, j | 0 <= i < j < |rest| + 1
        ensures Before(([m] + rest)[i], ([m] + rest)[j]) && ([m] + rest)[i] != ([m] + rest)[j]
      {
        if i == 0 { assert rest[j - 1] in names - {m}; }
      }
    }
  }

  ghost function Elements(q: seq<string>): set<string> {
    set n | n in q
  }

  lemma SortedHead(q: seq<string>)
    requires Sorted(q) && q != []
    ensures q[0] in Elements(q) && First(Elements(q)) == q[0]
  {
    assert q[0] in Elements(q);
    var m := First(Elements(q));
    var i :| 0 <= i < |q| && q[i] == m;
    if i != 0 {
      BeforeTotal(q[0], q[i]);
    }
  }

  lemma SortedTail(q: seq<string>)
    requires Sorted(q) && q != []
    ensures Sorted(q[1..]) && Elements(q[1..]) == Elements(q) - {q[0]}
  {
    forall n ensures n in q[1..] <==> n in q && n != q[0] {
      if n in q && n != q[0] {
        var i :| 0 <= i < |q| && q[i] == n;
        assert q[1..][i - 1] == n;
      }
      if n in q[1..] {
        var i :| 0 <= i < |q[1..]| && q[1..][i] == n;
        assert q[i + 1] == n;
      }
    }
  }

  /** A sorted sequence is determined by its elements. */
  lemma {:induction false} SortedIsOrdered(q: seq<string>)
    requires Sorted(q)
    ensures Ordered(Elements(q)) == q
    decreases |q|
  {
    if q != [] {
      SortedHead(q);
      SortedTail(q);
      SortedIsOrdered(q[1..]);
    }
  }

  /** The code sorts the reviewed names and then moves aliases to the front with a stable
      sort on a boolean key; a stable boolean sort is this partition. */
  function AliasesFirst(names: seq<string>): seq<string> {
    Select(names, true) + Select(names, false)
  }

  function Select(names: seq<string>, alias: bool): (q: seq<string>)
    ensures forall n :: n in q <==> n in names && IsAlias(n) == alias
  {
    if names == [] then []
    else if IsAlias(names[0]) == alias then [names[0]] + Select(names[1..], alias)
    else Select(names[1..], alias)
  }

  ghost predicate LexSorted(q: seq<string>) {
    forall i, j :: 0 <= i < j < |q| ==> LexLe(q[i], q[j]) && q[i] != q[j]
  }

  lemma {:induction false} SelectKeepsOrder(names: seq<string>, alias: bool)
    requires LexSorted(names)
    ensures LexSorted(Select(names, alias))
  {
    if names != [] {
      SelectKeepsOrder(names[1..], alias);
      var rest := Select(names[1..], alias);
      forall j | 0 <= j < |rest| ensures LexLe(names[0], rest[j]) && names[0] != rest[j] {
        assert rest[j] in names[1..];
        var k :| 0 <= k < |names[1..]| && names[1..][k] == rest[j];
        assert names[k + 1] == rest[j];
      }
    }
  }

  /** Stable partition of the lexicographically sorted names is exactly the unlink order. */
  lemma PartitionIsUnlinkOrder(names: seq<string>)
    requires LexSorted(names)
    ensures AliasesFirst(names) == Ordered(Elements(names))
  {
    SelectKeepsOrder(names, true);
    SelectKeepsOrder(names, false);
    var aliases, objects := Select(names, true), Select(names, false);
    var q := aliases + objects;
    forall i, j | 0 <= i < j < |q| ensures Before(q[i], q[j]) && q[i] != q[j] {
      if i < |aliases| {
        assert q[i] in aliases;
        if j < |aliases| { assert q[j] in aliases; } else { assert q[j] in objects; }
      } else {
        assert q[i] in objects && q[j] in objects;
        assert LexLe(objects[i - |aliases|], objects[j - |aliases|]);
      }
    }
    SortedIsOrdered(q);
    assert Elements(q) == Elements(names);
  }

  /** The sort by path of a freshly read directory. */
  function SortByPath(names: seq<string>): (q: seq<string>)
    ensures Elements(q) == Elements(names) && |q| == |names|
  {
    if names == [] then [] else
    var rest := SortByPath(names[1..]);
    assert Elements(names) == {names[0]} + Elements(rest);
    Insert(rest, names[0])
  }

  function Insert(q: seq<string>, n: string): (r: seq<string>)
    ensures Elements(r) == Elements(q) + {n} && |r| == |q| + 1
  {
    if q == [] || LexLe(n, q[0]) then
      assert Elements([n] + q) == Elements(q) + {n};
      [n] + q
    else
      assert Elements(q) == {q[0]} + Elements(q[1..]);
      var rest := Insert(q[1..], n);
      assert Elements([q[0]] + rest) == {q[0]} + Elements(rest);
      [q[0]] + rest
  }

  ghost predicate Distinct(q: seq<string>) {
    forall i, j :: 0 <= i < j < |q| ==> q[i] != q[j]
  }

  lemma {:induction false} InsertSorts(q: seq<string>, n: string)
    requires LexSorted(q) && n !in q
    ensures LexSorted(Insert(q, n))
  {
    if q == [] {
    } else if LexLe(n, q[0]) {
      forall j | 0 <= j < |q| ensures LexLe(n, q[j]) {
        if j > 0 { LexTransitive(n, q[0], q[j]); }
      }
    } else {
      LexTotal(n, q[0]);
      InsertSorts(q[1..], n);
      var rest := Insert(q[1..], n);
      forall j | 0 <= j < |rest| ensures LexLe(q[0], rest[j]) && q[0] != rest[j] {
        assert rest[j] in Elements(rest);
        assert q[0] !in q[1..];
        if rest[j] in Elements(q[1..]) {
          var k :| 0 <= k < |q[1..]| && q[1..][k] == rest[j];
          assert q[k + 1] == rest[j];
        }
      }
    }
  }

  lemma {:induction false} SortByPathSorts(names: seq<string>)
    requires Distinct(names)
    ensures LexSorted(SortByPath(names))
  {
    if names != [] {
      SortByPathSorts(names[1..]);
      var rest := SortByPath(names[1..]);
      assert names[0] !in Elements(names[1..]);
      assert names[0] !in Elements(rest);
      InsertSorts(rest, names[0]);
    }
  }

  /** Whatever order a directory is read in, sorting by path and then moving aliases to the
      front gives the one unlink order of its names. */
  lemma ReadOrderDoesNotMatter(names: seq<string>)
    requires Distinct(names)
    ensures AliasesFirst(SortByPath(names)) == Ordered(Elements(names))
  {
    SortByPathSorts(names);
    PartitionIsUnlinkOrder(SortByPath(names));
  }

  // Hexadecimal numbers.

  const HEX_DIGITS := "0123456789abcdef"
  const UPPER_HEX_DIGITS := "0123456789ABCDEF"

  /** The number that a string denotes in hexadecimal notation, in either case. */
  ghost function HexNumber(s: string): Option<nat> {
    if s == [] then Some(0) else
    match HexNumber(s[..|s| - 1])
    case None => None
    case Some(n) =>
      if d: nat :| d < 16 && (HEX_DIGITS[d] == s[|s| - 1] || UPPER_HEX_DIGITS[d] == s[|s| - 1]) then Some(16 * n + d) else None
  }

  lemma HexDigitIsDigit(c: char)
    ensures IsHexDigit(c) <==> exists d: nat :: d < 16 && (HEX_DIGITS[d] == c || UPPER_HEX_DIGITS[d] == c)
    ensures forall d: nat | d < 16 && (HEX_DIGITS[d] == c || UPPER_HEX_DIGITS[d] == c) :: d == 0 <==> c == '0'
  {
    if IsHexDigit(c) {
      var d := if c <= '9' then c as nat - '0' as nat else if c <= 'F' then c as nat - 'A' as nat + 10 else c as nat - 'a' as nat + 10;
      assert HEX_DIGITS[d] == c || UPPER_HEX_DIGITS[d] == c;
    }
  }

  /** The strings of hexadecimal digits are those that denote a number, and that is zero only for zeros. */
  lemma {:induction false} HexDigitsDenote(s: string)
    ensures HexNumber(s).Some? <==> forall i | 0 <= i < |s| :: IsHexDigit(s[i])
    ensures HexNumber(s).Some? ==> (HexNumber(s).value == 0 <==> forall i | 0 <= i < |s| :: s[i] == '0')
  {
    hide IsHexDigit;
    if s != [] {
      var front := s[..|s| - 1];
      HexDigitsDenote(front);
      HexDigitIsDigit(s[|s| - 1]);
      assert s == front + [s[|s| - 1]];
    }
  }

  /** A digest is written as 64 hexadecimal digits. */
  lemma HashesAreNumbers(value: string)
    ensures ValidHash(value) <==> |value| == 64 && HexNumber(value).Some?
  {
    HexDigitsDenote(value);
  }

  lemma LettersAndDigits(c: char)
    ensures IsAlphanumeric(c) <==> var n := c as int; 48 <= n <= 57 || 65 <= n <= 90 || 97 <= n <= 122
  {
  }

  /** A valid name is 64 hexadecimal digits, or these with a dot and 1 to 16 letters and digits. */
  lemma NamesAre(name: string)
    ensures ValidName(name) <==>
              && |name| >= 64 && HexNumber(name[..64]).Some?
              && (|name| == 64 || (66 <= |name| <= 81 && name[64] == '.' && forall i | 65 <= i < |name| :: IsAlphanumeric(name[i])))
    ensures |name| >= 64 && HexNumber(name[..64]).Some? ==> Stem(name) == name[..64] || (|name| > 64 && name[64] != '.')
  {
    var k := Dot(name);
    if |name| >= 64 {
      HexDigitsDenote(name[..64]);
    }
    hide HexNumber;
    if ValidName(name) {
      assert k == 64 && Stem(name) == name[..64];
      assert forall i | 65 <= i < |name| :: name[i] == name[65..][i - 65];
    } else if |name| >= 64 && HexNumber(name[..64]).Some? {
      assert forall i | 0 <= i < 64 :: name[..64][i] == name[i] && IsHexDigit(name[i]);
      assert k >= 64;
      if |name| > 64 && name[64] == '.' {
        assert k == 64 && Stem(name) == name[..64];
        assert forall i | 65 <= i < |name| :: name[i] == name[65..][i - 65];
      }
    }
  }
}
