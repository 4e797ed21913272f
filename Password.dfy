/** `generateSecurePassword` of the role script (update-role.js): one random
    character of each class, random characters of the full alphabet up to
    length 12, then a shuffle. Every `Math.random()` answer is a supplied
    real in [0, 1); the random-comparator sort is a supplied sequence of
    transpositions, which can express any permutation. */
module Password {

  const Uppercase := "ABCDEFGHIJKLMNOPQRSTUVWXYZ"
  const Lowercase := "abcdefghijklmnopqrstuvwxyz"
  const Numbers := "0123456789"
  const Special := "!@#$%^&*"
  const AllChars := Uppercase + Lowercase + Numbers + Special

  /** The length the loop grows the password to. */
  const Length := 12

  /** Every supplied random value is in [0, 1). */
  predicate ValidPicks(picks: seq<real>) {
    forall i :: 0 <= i < |picks| ==> 0.0 <= picks[i] < 1.0
  }

  /** `Math.floor(r * len)`: always a valid index of a string of length `len`. */
  function FloorIndex(r: real, len: nat): (k: nat)
    requires 0.0 <= r < 1.0 && len > 0
    ensures k < len
    ensures k as real <= r * len as real < k as real + 1.0
  {
    ProductBelow(r, len);
    (r * len as real).Floor
  }

  lemma ProductBelow(r: real, len: nat)
    requires 0.0 <= r < 1.0 && len > 0
    ensures 0.0 <= r * len as real < len as real
  {
    assert len as real - r * len as real == (1.0 - r) * len as real;
    assert (1.0 - r) * len as real > 0.0;
  }

  /** The character of `chars` that the random value `r` picks. */
  function Pick(chars: string, r: real): (c: char)
    requires 0.0 <= r < 1.0 && |chars| > 0
    ensures c in chars
  {
    chars[FloorIndex(r, |chars|)]
  }

  /** The four seeded characters, one of each class, from the first four picks. */
  function Seeded(picks: seq<real>): (s: string)
    requires |picks| == Length && ValidPicks(picks)
  {
    [Pick(Uppercase, picks[0]), Pick(Lowercase, picks[1]), Pick(Numbers, picks[2]), Pick(Special, picks[3])]
  }

  /** The password once it has grown to `n` characters: the seeded four,
      then one character of `AllChars` per further pick. */
  function Built(picks: seq<real>, n: nat): (s: string)
    requires |picks| == Length && ValidPicks(picks) && 4 <= n <= Length
    ensures |s| == n && s[..4] == Seeded(picks)
    ensures forall i :: 4 <= i < n ==> s[i] in AllChars
  {
    if n == 4 then Seeded(picks) else Built(picks, n - 1) + [Pick(AllChars, picks[n - 1])]
  }

  lemma BuiltStep(picks: seq<real>, n: nat)
    requires |picks| == Length && ValidPicks(picks) && 4 <= n < Length
    ensures Built(picks, n + 1) == Built(picks, n) + [Pick(AllChars, picks[n])]
  {
  }

  /** The password before the shuffle. */
  function Unshuffled(picks: seq<real>): string
    requires |picks| == Length && ValidPicks(picks)
  {
    Built(picks, Length)
  }

  /** The string holds an uppercase letter, a lowercase letter, a digit
      and a special character. */
  predicate HasAllClasses(s: string) {
    && (exists i :: 0 <= i < |s| && s[i] in Uppercase)
    && (exists i :: 0 <= i < |s| && s[i] in Lowercase)
    && (exists i :: 0 <= i < |s| && s[i] in Numbers)
    && (exists i :: 0 <= i < |s| && s[i] in Special)
  }

  /** Every character is one of `AllChars`. */
  predicate FromAlphabet(s: string) {
    forall i :: 0 <= i < |s| ==> s[i] in AllChars
  }

  /** The built string has length 12, every class, and only characters of
      the alphabet. */
  lemma UnshuffledShape(picks: seq<real>)
    requires |picks| == Length && ValidPicks(picks)
    ensures |Unshuffled(picks)| == Length
    ensures HasAllClasses(Unshuffled(picks))
    ensures FromAlphabet(Unshuffled(picks))
  {
    var s := Unshuffled(picks);
    assert s[..4][0] in Uppercase && s[..4][1] in Lowercase && s[..4][2] in Numbers && s[..4][3] in Special;
    assert s[0] in Uppercase && s[1] in Lowercase && s[2] in Numbers && s[3] in Special;
    forall i | 0 <= i < |s|
      ensures s[i] in AllChars
    {
      if i < 4 {
        assert s[i] == s[..4][i];
      }
    }
  }

  predicate ValidSwaps(swaps: seq<(nat, nat)>, n: nat) {
    forall k :: 0 <= k < |swaps| ==> swaps[k].0 < n && swaps[k].1 < n
  }

  /** Exchanges the characters at `i` and `j`. */
  function Swap(s: string, i: nat, j: nat): (r: string)
    requires i < |s| && j < |s|
    ensures |r| == |s| && r[i] == s[j] && r[j] == s[i]
    ensures forall k :: 0 <= k < |s| && k != i && k != j ==> r[k] == s[k]
    ensures multiset(r) == multiset(s)
  {
    s[i := s[j]][j := s[i]]
  }

  /** The shuffle: the transpositions applied in order. */
  function Permute(s: string, swaps: seq<(nat, nat)>): (r: string)
    requires ValidSwaps(swaps, |s|)
    ensures |r| == |s|
    ensures multiset(r) == multiset(s)
    decreases |swaps|
  {
    if |swaps| == 0 then s
    else Permute(Swap(s, swaps[0].0, swaps[0].1), swaps[1..])
  }

  /** A rearrangement keeps every class and the alphabet. */
  lemma RearrangementKeepsShape(s: string, t: string)
    requires multiset(s) == multiset(t)
    ensures HasAllClasses(s) ==> HasAllClasses(t)
    ensures FromAlphabet(s) ==> FromAlphabet(t)
  {
    if HasAllClasses(s) {
      var a :| 0 <= a < |s| && s[a] in Uppercase;
      var b :| 0 <= b < |s| && s[b] in Lowercase;
      var c :| 0 <= c < |s| && s[c] in Numbers;
      var d :| 0 <= d < |s| && s[d] in Special;
      assert s[a] in multiset(t) && s[b] in multiset(t) && s[c] in multiset(t) && s[d] in multiset(t);
      assert s[a] in t && s[b] in t && s[c] in t && s[d] in t;
    }
    if FromAlphabet(s) {
      forall i | 0 <= i < |t|
        ensures t[i] in AllChars
      {
        assert t[i] in multiset(s);
        assert t[i] in s;
      }
    }
  }

  /** `generateSecurePassword`, with `picks` the twelve `Math.random()`
      answers and `swaps` the rearrangement the final sort performs. */
  method GenerateSecurePassword(picks: seq<real>, swaps: seq<(nat, nat)>) returns (password: string)
    requires |picks| == Length && ValidPicks(picks)
    requires ValidSwaps(swaps, Length)
    ensures |password| == Length
    ensures HasAllClasses(password)
    ensures FromAlphabet(password)
    ensures multiset(password) == multiset(Unshuffled(picks))
    ensures password == Permute(Unshuffled(picks), swaps)
  {
    var built := "";
    built := built + [Uppercase[FloorIndex(picks[0], |Uppercase|)]];
    built := built + [Lowercase[FloorIndex(picks[1], |Lowercase|)]];
    built := built + [Numbers[FloorIndex(picks[2], |Numbers|)]];
    built := built + [Special[FloorIndex(picks[3], |Special|)]];
    assert built == Built(picks, 4);
    var allChars := Uppercase + Lowercase + Numbers + Special;
    while |built| < Length
      invariant 4 <= |built| <= Length
      invariant allChars == AllChars
      invariant built == Built(picks, |built|)
    {
      BuiltStep(picks, |built|);
      built := built + [allChars[FloorIndex(picks[|built|], |allChars|)]];
    }
    UnshuffledShape(picks);
    password := Permute(built, swaps);
    RearrangementKeepsShape(built, password);
  }
}
