/**
 * The QString and std::string operations the plugins rely on, stated over
 * `string` (a sequence of Unicode scalar values).
 */
module QtStrings {
  import opened Wrappers

  /** `QString::isEmpty`. */
  predicate IsEmpty(s: string)
  {
    |s| == 0
  }

  /** `startsWith`, for texts and lists alike. */
  predicate StartsWith<T(==)>(s: seq<T>, p: seq<T>)
  {
    |p| <= |s| && s[..|p|] == p
  }

  /** `endsWith`, for texts and lists alike. */
  predicate EndsWith<T(==)>(s: seq<T>, p: seq<T>)
  {
    |p| <= |s| && s[|s| - |p|..] == p
  }

  /** `p` occurs in `s` at index `i`. */
  predicate OccursAt(s: string, p: string, i: int)
  {
    0 <= i && i + |p| <= |s| && s[i..i + |p|] == p
  }

  /** `std::string::find(p)`: the first index at which `p` occurs, or None for `npos`. */
  function Find(s: string, p: string): (r: Option<nat>)
    ensures r.Some? ==> OccursAt(s, p, r.value)
    ensures r.Some? ==> forall j :: 0 <= j < r.value ==> !OccursAt(s, p, j)
    ensures r.None? ==> forall j :: !OccursAt(s, p, j)
  {
    FindFrom(s, p, 0)
  }

  /** The search behind Find, from index `k` onwards. */
  function FindFrom(s: string, p: string, k: nat): (r: Option<nat>)
    ensures r.Some? ==> k <= r.value && OccursAt(s, p, r.value)
    ensures r.Some? ==> forall j :: k <= j < r.value ==> !OccursAt(s, p, j)
    ensures r.None? ==> forall j :: k <= j ==> !OccursAt(s, p, j)
    decreases |s| - k
  {
    if k + |p| > |s| then None
    else if s[k..k + |p|] == p then Some(k)
    else FindFrom(s, p, k + 1)
  }

  /** `std::string::erase(pos, n)`: removes up to `n` characters from `pos` on. */
  function Erase(s: string, pos: nat, n: nat): string
    requires pos <= |s|
  {
    s[..pos] + s[if pos + n <= |s| then pos + n else |s|..]
  }

  /**
   * `QString::remove(p)`: deletes every occurrence of a non-empty `p`, found
   * left to right without overlap in the original text.
   */
  function RemoveAll(s: string, p: string): (r: string)
    requires p != []
    ensures |r| <= |s|
    decreases |s|
  {
    if |s| < |p| then s
    else if s[..|p|] == p then RemoveAll(s[|p|..], p)
    else [s[0]] + RemoveAll(s[1..], p)
  }

  /** RemoveAll leaves a text without occurrences of the pattern unchanged. */
  lemma {:induction false} RemoveAllAbsent(s: string, p: string)
    requires p != []
    requires forall j :: !OccursAt(s, p, j)
    ensures RemoveAll(s, p) == s
  {
    if |s| >= |p| {
      assert !OccursAt(s, p, 0);
      assert s[..|p|] != p;
      forall j ensures !OccursAt(s[1..], p, j) {
        if OccursAt(s[1..], p, j) {
          assert s[1..][j..j + |p|] == s[j + 1..j + 1 + |p|];
          assert OccursAt(s, p, j + 1);
        }
      }
      RemoveAllAbsent(s[1..], p);
      assert [s[0]] + s[1..] == s;
    }
  }

  /** A text that lacks the pattern's first character has nothing to remove. */
  lemma {:induction false} RemoveAllWithoutFirstChar(s: string, p: string)
    requires p != [] && p[0] !in s
    ensures RemoveAll(s, p) == s
  {
    forall j ensures !OccursAt(s, p, j) {
    }
    RemoveAllAbsent(s, p);
  }

  predicate IsAsciiLower(c: char)
  {
    'a' <= c <= 'z'
  }

  function UpperChar(c: char): char
  {
    if IsAsciiLower(c) then (c as int - 32) as char else c
  }

  /** `QString::toUpper`, restricted to the ASCII letters. */
  function ToUpper(s: string): (r: string)
    ensures |r| == |s|
  {
    if s == [] then [] else [UpperChar(s[0])] + ToUpper(s[1..])
  }

  /**
   * Upper-casing maps each lower-case letter to its capital, 32 code points
   * lower, keeps every other character, and leaves no lower-case letter.
   */
  lemma {:induction false} ToUpperChars(s: string)
    ensures forall i :: 0 <= i < |s| ==> !IsAsciiLower(ToUpper(s)[i])
    ensures forall i :: 0 <= i < |s| && !IsAsciiLower(s[i]) ==> ToUpper(s)[i] == s[i]
    ensures forall i :: 0 <= i < |s| && IsAsciiLower(s[i]) ==> ToUpper(s)[i] as int == s[i] as int - 32
  {
    if s != [] {
      ToUpperChars(s[1..]);
      assert forall i :: 1 <= i < |s| ==> ToUpper(s)[i] == ToUpper(s[1..])[i - 1] && s[i] == s[1..][i - 1];
    }
  }

  /** `QChar::isSpace`: the ASCII white space and the Unicode separators. */
  predicate IsSpace(c: char)
  {
    || '\t' <= c <= '\r'
    || c == ' '
    || c == '\U{85}'
    || c == '\U{A0}'
    || c == '\U{1680}'
    || '\U{2000}' <= c <= '\U{200A}'
    || c == '\U{2028}'
    || c == '\U{2029}'
    || c == '\U{202F}'
    || c == '\U{205F}'
    || c == '\U{3000}'
  }

  predicate AllSpace(s: string)
  {
    forall i :: 0 <= i < |s| ==> IsSpace(s[i])
  }

  /** The number of white-space characters `s` starts with. */
  function LeadingSpaces(s: string): (n: nat)
    ensures n <= |s|
    ensures forall k :: 0 <= k < n ==> IsSpace(s[k])
    ensures n < |s| ==> !IsSpace(s[n])
  {
    if s != [] && IsSpace(s[0]) then 1 + LeadingSpaces(s[1..]) else 0
  }

  /** The number of white-space characters `s` ends with. */
  function TrailingSpaces(s: string): (n: nat)
    ensures n <= |s|
    ensures forall k :: |s| - n <= k < |s| ==> IsSpace(s[k])
    ensures n < |s| ==> !IsSpace(s[|s| - 1 - n])
  {
    if s != [] && IsSpace(s[|s| - 1]) then 1 + TrailingSpaces(s[..|s| - 1]) else 0
  }

  /**
   * `QString::trimmed`: the text between the leading and the trailing white
   * space; empty when the text is all white space.
   */
  function Trimmed(s: string): string
  {
    var i, j := LeadingSpaces(s), |s| - TrailingSpaces(s);
    if i < j then s[i..j] else []
  }

  /** What `trimmed` promises, first: the result is the slice of the input after its leading white space. */
  lemma TrimmedSlice(s: string)
    ensures var t, i := Trimmed(s), LeadingSpaces(s);
            i + |t| <= |s| && t == s[i..i + |t|]
  {
    var i, n := LeadingSpaces(s), TrailingSpaces(s);
    if i >= |s| - n {
      assert s[i..i] == [];
    }
  }

  /** Second: only white space is cut off on either side of that slice. */
  lemma TrimmedCutsOnlySpace(s: string)
    ensures var t, i := Trimmed(s), LeadingSpaces(s);
            i + |t| <= |s| && AllSpace(s[..i]) && AllSpace(s[i + |t|..])
  {
    var i, n := LeadingSpaces(s), TrailingSpaces(s);
    AllSpaceSlice(s, 0, i);
    if i < |s| - n {
      assert i + |Trimmed(s)| == |s| - n;
      AllSpaceSlice(s, |s| - n, |s|);
    } else {
      AllSpaceSlice(s, i, |s|);
    }
  }

  lemma AllSpaceSlice(s: string, i: nat, j: nat)
    requires i <= j <= |s|
    requires forall k :: i <= k < j ==> IsSpace(s[k])
    ensures AllSpace(s[i..j])
  {
    assert forall k :: 0 <= k < j - i ==> s[i..j][k] == s[i + k];
  }

  /** Third: the result neither starts nor ends with white space. */
  lemma TrimmedEnds(s: string)
    ensures var t := Trimmed(s);
            t == [] || (!IsSpace(t[0]) && !IsSpace(t[|t| - 1]))
  {
  }

  /** `trimmed` gives the empty text exactly for a text of white space only. */
  lemma TrimmedEmpty(s: string)
    ensures Trimmed(s) == [] <==> AllSpace(s)
  {
    var i, n := LeadingSpaces(s), TrailingSpaces(s);
    if i < |s| - n {
      assert !IsSpace(s[i]);
    } else {
      forall k | 0 <= k < |s|
        ensures IsSpace(s[k])
      {
      }
    }
  }

  /** Trimming twice is trimming once. */
  lemma TrimmedIdempotent(s: string)
    ensures Trimmed(Trimmed(s)) == Trimmed(s)
  {
    var t := Trimmed(s);
    TrimmedEnds(s);
    if t != [] {
      assert LeadingSpaces(t) == 0;
      assert TrailingSpaces(t) == 0;
      assert t[0..|t|] == t;
    }
  }

  function DigitChar(d: nat): (c: char)
    requires d < 10
    ensures '0' <= c <= '9'
  {
    ('0' as int + d) as char
  }

  predicate IsDigits(s: string)
  {
    forall i :: 0 <= i < |s| ==> '0' <= s[i] <= '9'
  }

  /** `QString::number` / `QString::arg` of a non-negative integer: its decimal digits. */
  function Decimal(n: nat): (r: string)
    ensures r != [] && IsDigits(r)
    ensures n > 0 ==> r[0] != '0'
    decreases n
  {
    if n < 10 then [DigitChar(n)] else Decimal(n / 10) + [DigitChar(n % 10)]
  }

  /** The number a string of decimal digits denotes. */
  function DecimalValue(s: string): nat
    requires IsDigits(s)
  {
    if s == [] then 0 else 10 * DecimalValue(s[..|s| - 1]) + (s[|s| - 1] as int - '0' as int)
  }

  /** Reading the digits back gives the number that was printed. */
  lemma {:induction false} DecimalRoundTrip(n: nat)
    ensures DecimalValue(Decimal(n)) == n
  {
    if n >= 10 {
      var r := Decimal(n);
      assert r[..|r| - 1] == Decimal(n / 10);
      DecimalRoundTrip(n / 10);
    }
  }
}
