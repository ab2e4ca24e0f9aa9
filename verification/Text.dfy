/** Strings as the engine's Go code handles them: the order of `sort.Strings`,
    and the `strings` functions used by the context header. */
module Text {

  datatype Option<+T> = None | Some(value: T)

  /** Strict lexicographic order on code points, which is also the byte order of UTF-8. */
  predicate Precedes(a: string, b: string) {
    b != "" && (a == "" || a[0] < b[0] || (a[0] == b[0] && Precedes(a[1..], b[1..])))
  }

  lemma {:induction false} PrecedesIsLinear(a: string, b: string)
    ensures Precedes(a, b) || a == b || Precedes(b, a)
    ensures a == b ==> !Precedes(a, b)
    ensures !(Precedes(a, b) && Precedes(b, a))
  {
    if a != "" && b != "" && a[0] == b[0] {
      PrecedesIsLinear(a[1..], b[1..]);
      assert a == [a[0]] + a[1..] && b == [b[0]] + b[1..];
    }
  }

  lemma {:induction false} PrecedesIsTransitive(a: string, b: string, c: string)
    requires Precedes(a, b) && Precedes(b, c)
    ensures Precedes(a, c)
  {
    if a != "" && a[0] == b[0] == c[0] {
      PrecedesIsTransitive(a[1..], b[1..], c[1..]);
    }
  }

  /** The first difference decides: a smaller character, or the end of the text. */
  ghost predicate DiffersAt(a: string, b: string, n: nat) {
    n <= |a| && n < |b| && a[..n] == b[..n] && (n == |a| || a[n] < b[n])
  }

  lemma {:induction false} PrecedesAtTheDifference(a: string, b: string)
    ensures Precedes(a, b) <==> exists n: nat :: DiffersAt(a, b, n)
  {
    forall n: nat | n > 0 && DiffersAt(a, b, n) ensures a != "" && a[0] == b[0] {
      assert a[..n][0] == b[..n][0];
    }
    if a != "" && b != "" && a[0] == b[0] {
      PrecedesAtTheDifference(a[1..], b[1..]);
      if n: nat :| DiffersAt(a[1..], b[1..], n) {
        assert a[..n + 1] == [a[0]] + a[1..][..n] && b[..n + 1] == [b[0]] + b[1..][..n];
        assert DiffersAt(a, b, n + 1);
      }
      if n: nat :| DiffersAt(a, b, n) {
        assert n > 0 && a[..n][1..] == a[1..][..n - 1] && b[..n][1..] == b[1..][..n - 1];
        assert DiffersAt(a[1..], b[1..], n - 1);
      }
    } else if Precedes(a, b) {
      assert DiffersAt(a, b, 0);
    }
  }

  // ---- The keys of a map, in order

  predicate IsLeast(k: string, keys: set<string>) {
    k in keys && forall other | other in keys :: other == k || Precedes(k, other)
  }

  lemma {:induction false} LeastExists(keys: set<string>)
    requires keys != {}
    ensures exists k :: IsLeast(k, keys)
  {
    var k :| k in keys;
    if keys != {k} {
      LeastExists(keys - {k});
      var least :| IsLeast(least, keys - {k});
      PrecedesIsLinear(k, least);
      if Precedes(k, least) {
        forall other | other in keys && other != k ensures Precedes(k, other) {
          if other != least { PrecedesIsTransitive(k, least, other); }
        }
        assert IsLeast(k, keys);
      } else {
        assert IsLeast(least, keys);
      }
    } else {
      assert IsLeast(k, keys);
    }
  }

  lemma LeastIsUnique(keys: set<string>)
    ensures forall j, k :: IsLeast(j, keys) && IsLeast(k, keys) ==> j == k
  {
    forall j, k | IsLeast(j, keys) && IsLeast(k, keys) ensures j == k {
      PrecedesIsLinear(j, k);
    }
  }

  function SortedKeys(keys: set<string>): (sorted: seq<string>)
    ensures |sorted| == |keys|
    ensures forall k :: k in sorted <==> k in keys
    ensures forall i, j | 0 <= i < j < |sorted| :: Precedes(sorted[i], sorted[j])
  {
    if keys == {} then []
    else
      LeastExists(keys);
      LeastIsUnique(keys);
      var k :| k in keys && IsLeast(k, keys);
      [k] + SortedKeys(keys - {k})
  }

  lemma NoMembersMeansEmpty<T>(s: seq<T>)
    ensures (forall k :: k !in s) ==> s == []
  {
    if s != [] {
      assert s[0] in s;
    }
  }

  /** A strictly ordered list is determined by its members. */
  lemma {:induction false} OrderedListsWithSameMembersAgree(a: seq<string>, b: seq<string>)
    requires forall i, j | 0 <= i < j < |a| :: Precedes(a[i], a[j])
    requires forall i, j | 0 <= i < j < |b| :: Precedes(b[i], b[j])
    requires forall k :: k in a <==> k in b
    ensures a == b
  {
    if a == [] || b == [] {
      NoMembersMeansEmpty(a);
      NoMembersMeansEmpty(b);
    } else {
      assert a[0] in b && b[0] in a;
      var i :| 0 <= i < |b| && b[i] == a[0];
      var j :| 0 <= j < |a| && a[j] == b[0];
      PrecedesIsLinear(a[0], b[0]);
      assert a[0] == b[0];
      forall k ensures k in a[1..] <==> k in b[1..] {
        PrecedesIsLinear(k, a[0]);
        assert k in a <==> k == a[0] || k in a[1..];
        assert k in b <==> k == b[0] || k in b[1..];
        assert a[0] !in a[1..] by { forall x | x in a[1..] ensures x != a[0] { PrecedesIsLinear(x, a[0]); } }
        assert b[0] !in b[1..] by { forall x | x in b[1..] ensures x != b[0] { PrecedesIsLinear(x, b[0]); } }
      }
      OrderedListsWithSameMembersAgree(a[1..], b[1..]);
    }
  }

  // ---- strings.Split and strings.Join with a one-character separator

  function Split(s: string, separator: char): (parts: seq<string>)
    ensures |parts| >= 1
  {
    if s == "" then [""]
    else
      var rest := Split(s[1..], separator);
      if s[0] == separator then [""] + rest else [[s[0]] + rest[0]] + rest[1..]
  }

  function Join(parts: seq<string>, separator: char): string {
    if parts == [] then ""
    else if |parts| == 1 then parts[0]
    else parts[0] + [separator] + Join(parts[1..], separator)
  }

  lemma {:induction false} SplitPieces(s: string, separator: char)
    ensures forall i | 0 <= i < |Split(s, separator)| :: separator !in Split(s, separator)[i]
  {
    if s != "" {
      SplitPieces(s[1..], separator);
    }
  }

  lemma {:induction false} SplitFirst(piece: string, rest: string, separator: char)
    requires separator !in piece
    ensures Split(piece, separator) == [piece]
    ensures Split(piece + [separator] + rest, separator) == [piece] + Split(rest, separator)
  {
    var whole := piece + [separator] + rest;
    if piece == "" {
      assert whole[1..] == rest;
    } else {
      SplitFirst(piece[1..], rest, separator);
      assert whole[1..] == piece[1..] + [separator] + rest;
      assert piece == [piece[0]] + piece[1..];
    }
  }

  /** Splitting undoes joining when no part holds the separator. */
  lemma {:induction false} SplitUndoesJoin(parts: seq<string>, separator: char)
    requires parts != []
    requires forall i | 0 <= i < |parts| :: separator !in parts[i]
    ensures Split(Join(parts, separator), separator) == parts
  {
    if |parts| == 1 {
      SplitFirst(parts[0], "", separator);
    } else {
      SplitUndoesJoin(parts[1..], separator);
      SplitFirst(parts[0], Join(parts[1..], separator), separator);
    }
  }

  /** And joining undoes splitting. */
  lemma {:induction false} JoinUndoesSplit(s: string, separator: char)
    ensures Join(Split(s, separator), separator) == s
  {
    if s != "" {
      JoinUndoesSplit(s[1..], separator);
      var rest := Split(s[1..], separator);
      if s[0] == separator {
        JoinAfterNothing(rest, separator);
      } else {
        JoinLonger(s[0], rest, separator);
      }
      assert s == [s[0]] + s[1..];
    }
  }

  lemma JoinAfterNothing(rest: seq<string>, separator: char)
    requires rest != []
    ensures Join([""] + rest, separator) == [separator] + Join(rest, separator)
  {
    assert ([""] + rest)[1..] == rest;
  }

  lemma JoinLonger(c: char, parts: seq<string>, separator: char)
    requires parts != []
    ensures Join([[c] + parts[0]] + parts[1..], separator) == [c] + Join(parts, separator)
  {
    assert ([[c] + parts[0]] + parts[1..])[1..] == parts[1..];
  }

  // ---- strings.SplitN(s, "=", 2)

  function Cut(s: string, separator: char): Option<(string, string)> {
    if s == "" then None
    else if s[0] == separator then Some(("", s[1..]))
    else
      match Cut(s[1..], separator)
      case None => None
      case Some(pair) => Some(([s[0]] + pair.0, pair.1))
  }

  lemma {:induction false} CutAtFirst(key: string, value: string, separator: char)
    requires separator !in key
    ensures Cut(key + [separator] + value, separator) == Some((key, value))
  {
    var s := key + [separator] + value;
    if key == "" {
      assert s[1..] == value;
    } else {
      CutAtFirst(key[1..], value, separator);
      assert s[1..] == key[1..] + [separator] + value;
      assert key == [key[0]] + key[1..];
    }
  }

  /** The text is cut at the first separator, if there is one. */
  lemma {:induction false} CutExactly(s: string, separator: char)
    ensures Cut(s, separator).None? <==> separator !in s
    ensures forall key, value :: Cut(s, separator) == Some((key, value)) <==> s == key + [separator] + value && separator !in key
  {
    if s == "" {
    } else if s[0] == separator {
      forall key, value ensures Cut(s, separator) == Some((key, value)) <==> s == key + [separator] + value && separator !in key {
        if s == key + [separator] + value && separator !in key {
          CutAtFirst(key, value, separator);
        }
        assert s == "" + [separator] + s[1..];
      }
    } else {
      CutExactly(s[1..], separator);
      assert separator in s <==> separator in s[1..] by { assert s == [s[0]] + s[1..]; }
      forall key, value ensures Cut(s, separator) == Some((key, value)) <==> s == key + [separator] + value && separator !in key {
        if s == key + [separator] + value && separator !in key {
          CutAtFirst(key, value, separator);
        }
        if Cut(s, separator) == Some((key, value)) {
          assert key[1..] == Cut(s[1..], separator).value.0 && s[1..] == key[1..] + [separator] + value;
          assert s == [s[0]] + (key[1..] + [separator] + value) == key + [separator] + value;
          assert key == [key[0]] + key[1..];
        }
      }
    }
  }

  lemma {:induction false} CutLeavesSuffix(s: string, separator: char)
    requires Cut(s, separator).Some?
    ensures |Cut(s, separator).value.1| < |s|
    ensures Cut(s, separator).value.1 == s[|s| - |Cut(s, separator).value.1|..]
  {
    if s[0] != separator {
      CutLeavesSuffix(s[1..], separator);
    }
  }

  // ---- strings.TrimSpace

  predicate IsSpace(c: char) {
    || c in ['\t', '\n', '\r', ' ']
    || c in ['\U{000B}', '\U{000C}', '\U{0085}', '\U{00A0}', '\U{1680}', '\U{2028}', '\U{2029}']
    || '\U{2000}' <= c <= '\U{200A}'
    || c in ['\U{202F}', '\U{205F}', '\U{3000}']
  }

  function TrimLeft(s: string): string {
    if s != "" && IsSpace(s[0]) then TrimLeft(s[1..]) else s
  }

  function TrimRight(s: string): string {
    if s != "" && IsSpace(s[|s| - 1]) then TrimRight(s[..|s| - 1]) else s
  }

  function TrimSpace(s: string): string {
    TrimRight(TrimLeft(s))
  }

  lemma {:induction false} TrimRightEnds(s: string)
    ensures TrimRight(s) <= s
    ensures TrimRight(s) != "" ==> !IsSpace(TrimRight(s)[|TrimRight(s)| - 1])
  {
    if s != "" && IsSpace(s[|s| - 1]) {
      TrimRightEnds(s[..|s| - 1]);
    }
  }

  lemma {:induction false} TrimLeftIsSuffix(s: string)
    ensures |TrimLeft(s)| <= |s| && TrimLeft(s) == s[|s| - |TrimLeft(s)|..]
  {
    if s != "" && IsSpace(s[0]) {
      TrimLeftIsSuffix(s[1..]);
    }
  }

  lemma TrimSpaceMakesNoCharacters(s: string, c: char)
    requires c !in s
    ensures c !in TrimSpace(s)
  {
    TrimLeftIsSuffix(s);
    TrimRightEnds(TrimLeft(s));
  }

  /** White space as Unicode counts it. */
  lemma SpacesAre(c: char)
    ensures IsSpace(c) <==> c as int in {9, 10, 11, 12, 13, 32, 0x85, 0xA0, 0x1680, 0x2028, 0x2029, 0x202F, 0x205F, 0x3000}
                            || 0x2000 <= c as int <= 0x200A
  {
  }

  ghost predicate AllSpace(s: string) {
    forall c | c in s :: IsSpace(c)
  }

  lemma {:induction false} TrimLeftCuts(s: string) returns (i: nat)
    ensures i <= |s| && TrimLeft(s) == s[i..] && AllSpace(s[..i])
    ensures TrimLeft(s) != "" ==> !IsSpace(TrimLeft(s)[0])
  {
    if s != "" && IsSpace(s[0]) {
      var n := TrimLeftCuts(s[1..]);
      i := n + 1;
      assert s[..i] == [s[0]] + s[1..][..n];
    } else {
      i := 0;
    }
  }

  lemma {:induction false} TrimRightCuts(s: string) returns (j: nat)
    ensures j <= |s| && TrimRight(s) == s[..j] && AllSpace(s[j..])
    ensures TrimRight(s) != "" ==> !IsSpace(TrimRight(s)[|TrimRight(s)| - 1])
  {
    if s != "" && IsSpace(s[|s| - 1]) {
      j := TrimRightCuts(s[..|s| - 1]);
      assert s[j..] == s[..|s| - 1][j..] + [s[|s| - 1]];
    } else {
      j := |s|;
    }
  }

  /** White space is cut off at both ends and nowhere else. */
  lemma TrimSpaceCuts(s: string) returns (i: nat, j: nat)
    ensures i <= j <= |s| && TrimSpace(s) == s[i..j] && AllSpace(s[..i]) && AllSpace(s[j..])
    ensures i < j ==> !IsSpace(s[i]) && !IsSpace(s[j - 1])
  {
    i := TrimLeftCuts(s);
    var n := TrimRightCuts(s[i..]);
    j := i + n;
    assert s[j..] == s[i..][n..] && s[i..j] == s[i..][..n];
    if i < j {
      assert TrimSpace(s)[0] == s[i] && TrimSpace(s)[|TrimSpace(s)| - 1] == s[j - 1];
    }
  }

  // ---- strings.Join with a comma

  function JoinComma(items: seq<string>): string {
    if items == [] then ""
    else if |items| == 1 then items[0]
    else JoinComma(items[..|items| - 1]) + ", " + items[|items| - 1]
  }

  /** A comma and a blank stand between the items and nowhere else. */
  lemma {:induction false} JoinCommaOfBoth(a: seq<string>, b: seq<string>)
    requires a != [] && b != []
    ensures JoinComma(a + b) == JoinComma(a) + ", " + JoinComma(b)
  {
    hide JoinComma;
    var all, front := a + b, b[..|b| - 1];
    assert all[..|all| - 1] == a + front && all[|all| - 1] == b[|b| - 1];
    JoinCommaLast(all);
    JoinCommaLast(b);
    if front == [] {
      assert a + front == a;
    } else {
      JoinCommaOfBoth(a, front);
    }
  }

  lemma JoinCommaLast(items: seq<string>)
    requires items != []
    ensures JoinComma(items)
            == if |items| == 1 then items[0] else JoinComma(items[..|items| - 1]) + ", " + items[|items| - 1]
  {
  }

  // ---- strings.ToLower, as far as the result is ASCII

  /** Besides A to Z, two letters have an ASCII letter as their lower case: the dotted I and
      the Kelvin sign. Other letters are left alone. */
  function LowerChar(c: char): char {
    if 'A' <= c <= 'Z' then c - 'A' + 'a'
    else if c == '\U{130}' then 'i'
    else if c == '\U{212A}' then 'k'
    else c
  }

  function ToLower(s: string): (lower: string)
    ensures |lower| == |s|
    ensures forall i | 0 <= i < |s| :: lower[i] == LowerChar(s[i])
  {
    seq(|s|, i requires 0 <= i < |s| => LowerChar(s[i]))
  }

  lemma LettersAreLowered(c: char)
    ensures 65 <= c as int <= 90 ==> LowerChar(c) as int == c as int + 32
    ensures c as int < 65 || 90 < c as int < 128 ==> LowerChar(c) == c
    ensures ToLower("Requirement.ASSESSED") == "requirement.assessed"
  {
    var upper, lower := "Requirement.ASSESSED", "requirement.assessed";
    forall i | 0 <= i < |upper| ensures ToLower(upper)[i] == lower[i] {
    }
  }

  // ---- %d

  function Decimal(n: nat): (digits: string)
    ensures digits != ""
    ensures forall i | 0 <= i < |digits| :: '0' <= digits[i] <= '9'
  {
    var last := ['0' + (n % 10) as char];
    if n < 10 then last else Decimal(n / 10) + last
  }

  lemma {:induction false} DecimalIsInjective(m: nat, n: nat)
    requires Decimal(m) == Decimal(n)
    ensures m == n
  {
    var a, b := Decimal(m), Decimal(n);
    assert a[|a| - 1] == '0' + (m % 10) as char;
    assert b[|b| - 1] == '0' + (n % 10) as char;
    assert m % 10 == n % 10;
    if m >= 10 && n >= 10 {
      assert Decimal(m / 10) == a[..|a| - 1] == b[..|b| - 1] == Decimal(n / 10);
      DecimalIsInjective(m / 10, n / 10);
    }
  }

  /** The value of a string of digits. */
  function DigitsValue(digits: string): Option<nat> {
    if digits == "" || !('0' <= digits[|digits| - 1] <= '9') then None
    else
      var last := (digits[|digits| - 1] - '0') as nat;
      if |digits| == 1 then Some(last)
      else
        match DigitsValue(digits[..|digits| - 1])
        case None => None
        case Some(high) => Some(10 * high + last)
  }

  lemma {:induction false} DigitsValueUndoesDecimal(n: nat)
    ensures DigitsValue(Decimal(n)) == Some(n)
  {
    var digits := Decimal(n);
    assert digits[|digits| - 1] == '0' + (n % 10) as char;
    if n >= 10 {
      assert digits[..|digits| - 1] == Decimal(n / 10);
      DigitsValueUndoesDecimal(n / 10);
    }
  }
}
