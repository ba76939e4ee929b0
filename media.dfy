/** Values shared by the upload, step-controller and share components: the
    browser's File and Blob records and the few JavaScript string operations
    the components use (startsWith, includes, substr, toUpperCase). */
module Media {

  datatype Option<+T> = None | Some(value: T)

  newtype byte = x: int | 0 <= x < 256

  /** A Blob: a byte payload tagged with a declared media type. */
  datatype Blob = Blob(data: seq<byte>, mimeType: string)
  {
    function Size(): nat { |data| }
  }

  /** A File: a Blob with a display name. `size` is the byte length. */
  datatype MediaFile = MediaFile(name: string, data: seq<byte>, mimeType: string)
  {
    function Size(): nat { |data| }
  }

  /** `new File([blob], name, { type })`: the bytes of the blob, the given name and type. */
  function FileOf(blob: Blob, name: string, mimeType: string): (f: MediaFile)
    ensures f.data == blob.data && f.name == name && f.mimeType == mimeType
  {
    MediaFile(name, blob.data, mimeType)
  }

  /** `sub` occurs in `s` from position i on, checked character by character
      from offset k of `sub`. */
  predicate MatchesAt(s: string, sub: string, i: nat, k: nat)
    decreases |sub| - k
  {
    k >= |sub| || (i + k < |s| && s[i + k] == sub[k] && MatchesAt(s, sub, i, k + 1))
  }

  /** Character m of `sub` is found at position i + m of `s`. */
  predicate CharAt(s: string, sub: string, i: nat, m: nat)
  {
    m < |sub| && i + m < |s| && s[i + m] == sub[m]
  }

  lemma {:induction false} MatchesAtIff(s: string, sub: string, i: nat, k: nat)
    ensures MatchesAt(s, sub, i, k) <==> forall m: nat :: k <= m < |sub| ==> CharAt(s, sub, i, m)
    decreases |sub| - k
  {
    if k < |sub| {
      MatchesAtIff(s, sub, i, k + 1);
      if forall m: nat :: k <= m < |sub| ==> CharAt(s, sub, i, m) {
        assert CharAt(s, sub, i, k);
      }
    }
  }

  /** An occurrence of `sub` at position i, stated on slices. */
  lemma OccursAtIff(s: string, sub: string, i: nat)
    requires i <= |s|
    ensures MatchesAt(s, sub, i, 0) <==> i + |sub| <= |s| && s[i..i + |sub|] == sub
  {
    MatchesAtIff(s, sub, i, 0);
    if i + |sub| <= |s| && s[i..i + |sub|] == sub {
      forall m: nat | m < |sub| ensures CharAt(s, sub, i, m) {
        assert s[i..i + |sub|][m] == s[i + m];
      }
    }
    if MatchesAt(s, sub, i, 0) && |sub| > 0 {
      assert CharAt(s, sub, i, |sub| - 1);
      forall m | 0 <= m < |sub| ensures s[i..i + |sub|][m] == sub[m] {
        assert CharAt(s, sub, i, m);
      }
    }
  }

  /** `s.startsWith(p)` */
  predicate StartsWith(s: string, p: string)
  {
    MatchesAt(s, p, 0, 0)
  }

  lemma StartsWithIff(s: string, p: string)
    ensures StartsWith(s, p) <==> |p| <= |s| && s[..|p|] == p
  {
    OccursAtIff(s, p, 0);
  }

  /** `sub` occurs in `s` at some position from i on. */
  predicate ContainsFrom(s: string, sub: string, i: nat)
    decreases |s| - i
  {
    i <= |s| && (MatchesAt(s, sub, i, 0) || ContainsFrom(s, sub, i + 1))
  }

  /** `s.includes(sub)` */
  predicate Contains(s: string, sub: string)
  {
    ContainsFrom(s, sub, 0)
  }

  /** An occurrence at j is found by a search starting at any i <= j. */
  lemma {:induction false} ContainsFromWitness(s: string, sub: string, i: nat, j: nat)
    requires i <= j <= |s| && MatchesAt(s, sub, j, 0)
    ensures ContainsFrom(s, sub, i)
    decreases j - i
  {
    if i < j {
      ContainsFromWitness(s, sub, i + 1, j);
    }
  }

  /** A successful search from i has found an occurrence at some j >= i. */
  lemma {:induction false} ContainsFromFound(s: string, sub: string, i: nat)
    requires ContainsFrom(s, sub, i)
    ensures exists j: nat :: i <= j <= |s| && MatchesAt(s, sub, j, 0)
    decreases |s| - i
  {
    if MatchesAt(s, sub, i, 0) {
      assert i <= i <= |s| && MatchesAt(s, sub, i, 0);
    } else {
      ContainsFromFound(s, sub, i + 1);
      var j: nat :| i + 1 <= j <= |s| && MatchesAt(s, sub, j, 0);
      assert i <= j <= |s| && MatchesAt(s, sub, j, 0);
    }
  }

  lemma ContainsFromIff(s: string, sub: string, i: nat)
    ensures ContainsFrom(s, sub, i) <==> exists j: nat :: i <= j <= |s| && MatchesAt(s, sub, j, 0)
  {
    if ContainsFrom(s, sub, i) {
      ContainsFromFound(s, sub, i);
    }
    if exists j: nat :: i <= j <= |s| && MatchesAt(s, sub, j, 0) {
      var j: nat :| i <= j <= |s| && MatchesAt(s, sub, j, 0);
      ContainsFromWitness(s, sub, i, j);
    }
  }

  /** An occurrence of `sub` in `s` starting at position i. */
  ghost predicate OccursAt(s: string, sub: string, i: nat)
  {
    i + |sub| <= |s| && s[i..i + |sub|] == sub
  }

  /** Contains agrees with the positional definition of an occurrence. */
  lemma ContainsIffOccurrence(s: string, sub: string)
    ensures Contains(s, sub) <==> exists i: nat :: OccursAt(s, sub, i)
  {
    ContainsFromIff(s, sub, 0);
    forall i: nat | i <= |s| ensures MatchesAt(s, sub, i, 0) <==> OccursAt(s, sub, i) {
      OccursAtIff(s, sub, i);
    }
    if exists i: nat :: OccursAt(s, sub, i) {
      var i: nat :| OccursAt(s, sub, i);
      OccursAtIff(s, sub, i);
      assert MatchesAt(s, sub, i, 0);
    }
  }

  /** A string in which some character of `sub` never appears does not contain `sub`. */
  lemma AbsentChar(s: string, sub: string, j: nat)
    requires j < |sub| && sub[j] !in s
    ensures !Contains(s, sub)
  {
    ContainsIffOccurrence(s, sub);
  }

  /** A string that does not contain some piece of `sub` does not contain `sub`. */
  lemma AbsentPiece(s: string, sub: string, j: nat, len: nat)
    requires j + len <= |sub| && !Contains(s, sub[j..j + len])
    ensures !Contains(s, sub)
  {
    ContainsIffOccurrence(s, sub);
    ContainsIffOccurrence(s, sub[j..j + len]);
    if Contains(s, sub) {
      var i: nat :| OccursAt(s, sub, i);
      forall k | j <= k < j + len ensures sub[k] == s[i + k] {
        assert s[i..i + |sub|][k] == s[i + k];
      }
      assert sub[j..j + len] == s[i + j..i + j + len];
      assert OccursAt(s, sub[j..j + len], i + j);
    }
  }

  /** `s.substr(start, len)` for non-negative arguments: the characters from
      `start` (clamped to the length) for at most `len` positions. */
  function Substr(s: string, start: nat, len: nat): (r: string)
    ensures |r| <= len
    ensures start <= |s| ==> r == s[start..if start + len <= |s| then start + len else |s|]
    ensures start > |s| ==> r == []
  {
    var b := if start <= |s| then start else |s|;
    var e := if b + len <= |s| then b + len else |s|;
    s[b..e]
  }

  predicate IsLowerAscii(c: char) { 'a' <= c <= 'z' }

  /** `toUpperCase` on the ASCII letters; every other character is kept. */
  function UpperChar(c: char): (u: char)
    ensures !IsLowerAscii(u)
    ensures IsLowerAscii(c) ==> u as int == c as int - 32
    ensures !IsLowerAscii(c) ==> u == c
  {
    if IsLowerAscii(c) then (c as int - 32) as char else c
  }

  function ToUpper(s: string): (r: string)
    ensures |r| == |s|
    ensures forall i :: 0 <= i < |r| ==> r[i] == UpperChar(s[i])
  {
    if s == [] then [] else [UpperChar(s[0])] + ToUpper(s[1..])
  }

  /** A JavaScript template-literal interpolation of a value that may be
      `undefined`: the absent value renders as the text "undefined". */
  function Interpolate(v: Option<string>): (r: string)
    ensures v.Some? ==> r == v.value
    ensures v.None? ==> r == "undefined"
  {
    match v
    case Some(s) => s
    case None => "undefined"
  }

  /** JavaScript truthiness of an optional string: present and non-empty. */
  predicate Truthy(v: Option<string>)
  {
    v.Some? && v.value != ""
  }

  /** The number a string of decimal digits denotes, read most significant
      digit first. */
  function DigitsValue(s: string): nat
    requires forall i :: 0 <= i < |s| ==> '0' <= s[i] <= '9'
  {
    if s == [] then 0
    else DigitsValue(s[..|s| - 1]) * 10 + (s[|s| - 1] as int - '0' as int)
  }

  /** Decimal rendering of a natural number, as `${n}` does: digits only, no
      leading zero, and reading them back gives n. */
  function DecimalDigits(n: nat): (r: string)
    ensures |r| >= 1
    ensures forall i :: 0 <= i < |r| ==> '0' <= r[i] <= '9'
    ensures |r| > 1 ==> r[0] != '0'
    ensures DigitsValue(r) == n
    decreases n
  {
    var d := ['0' + (n % 10) as char];
    if n < 10 then d
    else
      var high := DecimalDigits(n / 10);
      assert (high + d)[..|high + d| - 1] == high;
      high + d
  }
}
