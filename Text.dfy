/**
 * The string operations of Python's `str` (and JavaScript's `String`) that the
 * core uses, restricted to ASCII: `strip`, `strip(chars)`, `lower`, `in`,
 * `split(sep)` and `split(sep, 1)`.
 */
module Text {

  /** Python's `str.isspace` on ASCII: tab, line feed, vertical tab, form feed,
      carriage return, the separators 0x1C-0x1F and space. */
  predicate IsSpace(c: char)
  {
    9 <= c as int <= 13 || 28 <= c as int <= 32
  }

  predicate IsUpper(c: char)
  {
    'A' <= c <= 'Z'
  }

  predicate IsDigit(c: char)
  {
    '0' <= c <= '9'
  }

  /** `"'` and `'`, the characters of `strip('"\'')`. */
  predicate IsQuote(c: char)
  {
    c == '"' || c == '\''
  }

  /** ASCII `lower` on one character. */
  function LowerChar(c: char): (d: char)
    ensures !IsUpper(d)
    ensures IsSpace(d) == IsSpace(c) && IsDigit(d) == IsDigit(c)
    ensures !IsUpper(c) ==> d == c
  {
    if IsUpper(c) then (c as int + 32) as char else c
  }

  /** `s.lower()`. */
  function Lower(s: string): (r: string)
    ensures |r| == |s|
  {
    if s == [] then [] else [LowerChar(s[0])] + Lower(s[1..])
  }

  /** `lower` works character by character and leaves no capital behind. */
  lemma {:induction false} LowerAt(s: string)
    ensures forall i :: 0 <= i < |s| ==> Lower(s)[i] == LowerChar(s[i])
    ensures NoUpper(Lower(s))
  {
    if s != [] {
      LowerAt(s[1..]);
      assert forall i :: 1 <= i < |s| ==> Lower(s)[i] == Lower(s[1..])[i - 1];
    }
  }

  predicate NoUpper(s: string)
  {
    forall i :: 0 <= i < |s| ==> !IsUpper(s[i])
  }

  /** Lowering twice is lowering once, and a string without capitals is left alone. */
  lemma {:induction false} LowerFixpoint(s: string)
    requires NoUpper(s)
    ensures Lower(s) == s
  {
    if s != [] {
      LowerFixpoint(s[1..]);
      assert s == [s[0]] + s[1..];
    }
  }

  /** Drops the leading characters that satisfy `drop`. */
  function TrimStart(s: string, drop: char -> bool): (r: string)
    ensures |r| <= |s|
    ensures r == [] || !drop(r[0])
  {
    if |s| > 0 && drop(s[0]) then TrimStart(s[1..], drop) else s
  }

  /** `TrimStart` keeps a suffix of its input. */
  lemma {:induction false} TrimStartSuffix(s: string, drop: char -> bool)
    ensures TrimStart(s, drop) == s[|s| - |TrimStart(s, drop)|..]
  {
    if |s| > 0 && drop(s[0]) {
      TrimStartSuffix(s[1..], drop);
      var r := TrimStart(s, drop);
      assert s[1..][|s| - 1 - |r|..] == s[|s| - |r|..];
    }
  }

  /** Every character `TrimStart` drops satisfies `drop`. */
  lemma {:induction false} TrimStartDropsOnly(s: string, drop: char -> bool)
    ensures forall i :: 0 <= i < |s| - |TrimStart(s, drop)| ==> drop(s[i])
  {
    if |s| > 0 && drop(s[0]) {
      TrimStartDropsOnly(s[1..], drop);
      assert forall i :: 0 < i < |s| - |TrimStart(s, drop)| ==> s[i] == s[1..][i - 1];
    }
  }

  /** Drops the trailing characters that satisfy `drop`. */
  function TrimEnd(s: string, drop: char -> bool): (r: string)
    ensures |r| <= |s|
    ensures r == [] || !drop(r[|r| - 1])
  {
    if |s| > 0 && drop(s[|s| - 1]) then TrimEnd(s[..|s| - 1], drop) else s
  }

  /** `TrimEnd` keeps a prefix of its input. */
  lemma {:induction false} TrimEndPrefix(s: string, drop: char -> bool)
    ensures TrimEnd(s, drop) == s[..|TrimEnd(s, drop)|]
  {
    if |s| > 0 && drop(s[|s| - 1]) {
      TrimEndPrefix(s[..|s| - 1], drop);
      var r := TrimEnd(s, drop);
      assert s[..|s| - 1][..|r|] == s[..|r|];
    }
  }

  /** Every character `TrimEnd` drops satisfies `drop`. */
  lemma {:induction false} TrimEndDropsOnly(s: string, drop: char -> bool)
    ensures forall i :: |TrimEnd(s, drop)| <= i < |s| ==> drop(s[i])
  {
    if |s| > 0 && drop(s[|s| - 1]) {
      TrimEndDropsOnly(s[..|s| - 1], drop);
      assert forall i :: |TrimEnd(s, drop)| <= i < |s| - 1 ==> s[i] == s[..|s| - 1][i];
    }
  }

  /** Python's `s.strip(chars)`, with the character set given as a predicate. */
  function Trim(s: string, drop: char -> bool): (r: string)
    ensures |r| <= |s|
    ensures r == [] || (!drop(r[0]) && !drop(r[|r| - 1]))
  {
    var a := TrimStart(s, drop);
    TrimEndPrefix(a, drop);
    TrimEnd(a, drop)
  }

  /**
   * Trimming cuts out the piece of `s` at some offset `i` such that every
   * character before it and every character after it is in the set; every
   * character not in the set is kept.
   */
  lemma TrimKeepsInner(s: string, drop: char -> bool)
    ensures exists i :: OccursAt(s, Trim(s, drop), i) &&
              (forall k :: 0 <= k < i ==> drop(s[k])) &&
              (forall k :: i + |Trim(s, drop)| <= k < |s| ==> drop(s[k]))
    ensures forall c :: c in s && !drop(c) ==> c in Trim(s, drop)
  {
    var a := TrimStart(s, drop);
    var r := TrimEnd(a, drop);
    var st := |s| - |a|;
    TrimStartSuffix(s, drop);
    TrimEndPrefix(a, drop);
    TrimStartDropsOnly(s, drop);
    TrimEndDropsOnly(a, drop);
    assert r == Trim(s, drop);
    assert r == s[st..st + |r|];
    assert forall j :: st <= j < |s| ==> s[j] == a[j - st];
    assert OccursAt(s, Trim(s, drop), st);
    forall k | st + |r| <= k < |s| ensures drop(s[k]) {
      assert s[k] == a[k - st];
    }
    PieceKeepsInner(s, drop, r, st);
  }

  /** A piece of `s` with only dropped characters around it holds every kept character. */
  lemma PieceKeepsInner(s: string, drop: char -> bool, r: string, p: int)
    requires OccursAt(s, r, p)
    requires forall k :: 0 <= k < p ==> drop(s[k])
    requires forall k :: p + |r| <= k < |s| ==> drop(s[k])
    ensures forall c :: c in s && !drop(c) ==> c in r
  {
    forall c | c in s && !drop(c) ensures c in r {
      var k :| 0 <= k < |s| && s[k] == c;
      assert p <= k < p + |r|;
      assert s[k] == r[k - p];
    }
  }

  /**
   * `s.strip(chars)` is the one piece `s[i..j]` with only stripped
   * characters around it and, unless it is empty, a kept character at each end.
   */
  lemma TrimCharacterised(s: string, drop: char -> bool, i: int, j: int)
    requires 0 <= i <= j <= |s|
    requires forall k :: 0 <= k < i ==> drop(s[k])
    requires forall k :: j <= k < |s| ==> drop(s[k])
    requires i == j ==> forall k :: 0 <= k < |s| ==> drop(s[k])
    requires i < j ==> !drop(s[i]) && !drop(s[j - 1])
    ensures Trim(s, drop) == s[i..j]
  {
    TrimKeepsInner(s, drop);
    var r := Trim(s, drop);
    var p :| OccursAt(s, r, p) && (forall k :: 0 <= k < p ==> drop(s[k])) &&
             (forall k :: p + |r| <= k < |s| ==> drop(s[k]));
    PieceUnique(s, drop, r, p, i, j);
  }

  /** Two pieces of `s` with the trimming properties are the same piece. */
  lemma PieceUnique(s: string, drop: char -> bool, r: string, p: int, i: int, j: int)
    requires OccursAt(s, r, p)
    requires forall k :: 0 <= k < p ==> drop(s[k])
    requires forall k :: p + |r| <= k < |s| ==> drop(s[k])
    requires r == [] || (!drop(r[0]) && !drop(r[|r| - 1]))
    requires 0 <= i <= j <= |s|
    requires forall k :: 0 <= k < i ==> drop(s[k])
    requires forall k :: j <= k < |s| ==> drop(s[k])
    requires i == j ==> forall k :: 0 <= k < |s| ==> drop(s[k])
    requires i < j ==> !drop(s[i]) && !drop(s[j - 1])
    ensures r == s[i..j]
  {
    if r == [] {
      assert i == j;
    } else {
      assert s[p] == r[0] && s[p + |r| - 1] == r[|r| - 1];
      assert p == i;
      assert p + |r| == j;
    }
  }

  /** Python's `s.strip()` over ASCII whitespace. */
  function Strip(s: string): (r: string)
    ensures r == [] || (!IsSpace(r[0]) && !IsSpace(r[|r| - 1]))
  {
    Trim(s, IsSpace)
  }

  /** A string whose two ends are not in the stripped set is its own trim. */
  lemma TrimFixpoint(s: string, drop: char -> bool)
    requires s == [] || (!drop(s[0]) && !drop(s[|s| - 1]))
    ensures Trim(s, drop) == s
  {
  }

  /** Trimming is idempotent. */
  lemma TrimIdempotent(s: string, drop: char -> bool)
    ensures Trim(Trim(s, drop), drop) == Trim(s, drop)
  {
    TrimFixpoint(Trim(s, drop), drop);
  }

  /** `s.strip()` is empty exactly when `s` is all whitespace. */
  lemma StripEmptyIff(s: string)
    ensures Strip(s) == [] <==> forall i :: 0 <= i < |s| ==> IsSpace(s[i])
  {
    TrimKeepsInner(s, IsSpace);
    if Strip(s) != [] {
      var k :| OccursAt(s, Strip(s), k) && (forall j :: 0 <= j < k ==> IsSpace(s[j])) &&
               (forall j :: k + |Strip(s)| <= j < |s| ==> IsSpace(s[j]));
      assert s[k] == Strip(s)[0];
    } else {
      forall i | 0 <= i < |s| ensures IsSpace(s[i]) {
        assert s[i] in s;
      }
    }
  }

  /** `needle` occurs in `hay` at offset `i`. */
  predicate OccursAt(hay: string, needle: string, i: int)
  {
    0 <= i <= |hay| - |needle| && hay[i..i + |needle|] == needle
  }

  /** Python's `needle in hay` for strings. */
  predicate Contains(hay: string, needle: string)
    decreases |hay|
  {
    needle <= hay || (|hay| > 0 && Contains(hay[1..], needle))
  }

  /** `Contains` is substring occurrence at some offset. */
  lemma {:induction false} ContainsIff(hay: string, needle: string)
    ensures Contains(hay, needle) <==> exists i :: OccursAt(hay, needle, i)
    decreases |hay|
  {
    if Contains(hay, needle) {
      ContainsHasOffset(hay, needle);
    }
    if exists i :: OccursAt(hay, needle, i) {
      var i :| OccursAt(hay, needle, i);
      OffsetContains(hay, needle, i);
    }
  }

  lemma {:induction false} ContainsHasOffset(hay: string, needle: string)
    requires Contains(hay, needle)
    ensures exists i :: OccursAt(hay, needle, i)
    decreases |hay|
  {
    if needle <= hay {
      assert OccursAt(hay, needle, 0);
    } else {
      ContainsHasOffset(hay[1..], needle);
      var j :| OccursAt(hay[1..], needle, j);
      assert hay[j + 1..j + 1 + |needle|] == hay[1..][j..j + |needle|];
      assert OccursAt(hay, needle, j + 1);
    }
  }

  lemma {:induction false} OffsetContains(hay: string, needle: string, i: int)
    requires OccursAt(hay, needle, i)
    ensures Contains(hay, needle)
    decreases i
  {
    if i == 0 {
      assert needle <= hay;
    } else {
      assert hay[1..][i - 1..i - 1 + |needle|] == hay[i..i + |needle|];
      OffsetContains(hay[1..], needle, i - 1);
    }
  }

  /** The index of the first occurrence of `c` in `s`. */
  function FirstIndex(s: string, c: char): (k: nat)
    requires c in s
    ensures k < |s| && s[k] == c && c !in s[..k]
  {
    if s[0] == c then 0 else
      assert c in s[1..] by { var j :| 0 <= j < |s| && s[j] == c; assert s[1..][j - 1] == c; }
      var k := 1 + FirstIndex(s[1..], c);
      assert s[..k] == [s[0]] + s[1..][..k - 1];
      k
  }

  /** Python's `s.split(sep)` with a one-character separator. */
  function Split(s: string, sep: char): (parts: seq<string>)
    ensures |parts| >= 1
    ensures forall p :: p in parts ==> sep !in p
    decreases |s|
  {
    if sep in s then
      var k := FirstIndex(s, sep);
      [s[..k]] + Split(s[k + 1..], sep)
    else
      [s]
  }

  /** Python's `sep.join(parts)`. */
  function Join(parts: seq<string>, sep: char): string
  {
    if |parts| <= 1 then (if parts == [] then "" else parts[0])
    else parts[0] + [sep] + Join(parts[1..], sep)
  }

  /** Splitting and joining again gives back the original text. */
  lemma {:induction false} SplitJoin(s: string, sep: char)
    ensures Join(Split(s, sep), sep) == s
    decreases |s|
  {
    if sep in s {
      var k := FirstIndex(s, sep);
      SplitJoin(s[k + 1..], sep);
      assert Split(s, sep)[1..] == Split(s[k + 1..], sep);
      assert s == s[..k] + [sep] + s[k + 1..];
    }
  }

  /** `s.split(sep, 1)[1]`: the text after the first separator. */
  function AfterFirst(s: string, sep: char): (r: string)
    requires sep in s
    ensures exists k :: 0 <= k < |s| && s[k] == sep && sep !in s[..k] && r == s[k + 1..]
  {
    var k := FirstIndex(s, sep);
    s[k + 1..]
  }
}
