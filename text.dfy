/** The string operations the core relies on: Go's `strings.ToLower` (restricted to
    ASCII), `strings.Split` with a one-character separator, and the
    `strings.Split(address, "@")[1]` domain extraction both adapters perform. */
module Text {

  /** Lower-cases one ASCII letter and leaves every other character alone. */
  function LowerChar(c: char): char
  {
    if 'A' <= c <= 'Z' then (c as int - 'A' as int + 'a' as int) as char else c
  }

  predicate IsUpper(c: char)
  {
    'A' <= c <= 'Z'
  }

  /** `strings.ToLower`, character by character. */
  function ToLower(s: string): (t: string)
    ensures |t| == |s|
    ensures forall i :: 0 <= i < |s| ==> t[i] == LowerChar(s[i])
    ensures forall i :: 0 <= i < |t| ==> !IsUpper(t[i])
  {
    if s == [] then [] else [LowerChar(s[0])] + ToLower(s[1..])
  }

  /** Case-insensitive equality, defined independently of `ToLower`. */
  predicate EqualFold(s: string, t: string)
  {
    |s| == |t| && forall i :: 0 <= i < |s| ==> LowerChar(s[i]) == LowerChar(t[i])
  }

  /** Comparing lower-cased forms is exactly case-insensitive comparison. */
  lemma LowerEqualIffFold(s: string, t: string)
    ensures ToLower(s) == ToLower(t) <==> EqualFold(s, t)
  {
    if EqualFold(s, t) {
      assert forall i :: 0 <= i < |s| ==> ToLower(s)[i] == ToLower(t)[i];
    }
    if ToLower(s) == ToLower(t) {
      assert forall i :: 0 <= i < |s| ==> LowerChar(s[i]) == ToLower(t)[i];
    }
  }

  /** A string without upper-case letters is its own lower-case form;
      in particular `ToLower` is idempotent. */
  lemma LowerOfLower(t: string)
    requires forall i :: 0 <= i < |t| ==> !IsUpper(t[i])
    ensures ToLower(t) == t
  {
    assert forall i :: 0 <= i < |t| ==> ToLower(t)[i] == t[i];
  }

  /** The position of the first occurrence of `c` in `s`. */
  function IndexOf(s: string, c: char): (k: nat)
    requires c in s
    ensures k < |s| && s[k] == c && c !in s[..k]
  {
    if s[0] == c then 0
    else
      assert s == [s[0]] + s[1..];
      var k := IndexOf(s[1..], c);
      assert s[..k + 1] == [s[0]] + s[1..][..k];
      k + 1
  }

  /** Any position holding the first `c` is the one `IndexOf` finds. */
  lemma IndexOfUnique(s: string, c: char, k: nat)
    requires k < |s| && s[k] == c && c !in s[..k]
    ensures IndexOf(s, c) == k
  {
    var j := IndexOf(s, c);
    forall i | 0 <= i < k ensures s[i] != c {
      assert s[i] == s[..k][i];
    }
    forall i | 0 <= i < j ensures s[i] != c {
      assert s[i] == s[..j][i];
    }
  }

  /** `strings.Split(s, string(sep))`: the pieces of `s` between occurrences of `sep`;
      a string without `sep` (the empty string included) is one piece. */
  function Split(s: string, sep: char): (parts: seq<string>)
    ensures |parts| >= 1
    ensures forall i :: 0 <= i < |parts| ==> sep !in parts[i]
    decreases |s|
  {
    if s == [] then [[]]
    else
      var rest := Split(s[1..], sep);
      if s[0] == sep then [[]] + rest
      else [[s[0]] + rest[0]] + rest[1..]
  }

  /** `strings.Join(parts, string(sep))`. */
  function Join(parts: seq<string>, sep: char): string
    requires |parts| >= 1
  {
    if |parts| == 1 then parts[0] else parts[0] + [sep] + Join(parts[1..], sep)
  }

  /** Joining the pieces back with the separator gives the original string. */
  lemma {:induction false} JoinSplit(s: string, sep: char)
    ensures Join(Split(s, sep), sep) == s
    decreases |s|
  {
    if s != [] {
      var rest := Split(s[1..], sep);
      JoinSplit(s[1..], sep);
      if s[0] == sep {
        assert Split(s, sep)[1..] == rest;
      } else {
        var parts := Split(s, sep);
        if |rest| == 1 {
          assert parts == [[s[0]] + rest[0]];
        } else {
          assert parts[1..] == rest[1..];
          assert Join(rest, sep) == rest[0] + [sep] + Join(rest[1..], sep);
        }
      }
    }
  }

  /** The first piece is the longest prefix free of `sep`; if `sep` occurs, it
      follows that piece and the remaining pieces split what comes after it. */
  lemma {:induction false} SplitFirst(s: string, sep: char)
    ensures var parts := Split(s, sep);
      parts[0] <= s &&
      if sep in s then
        |parts[0]| < |s| && s[|parts[0]|] == sep && parts[1..] == Split(s[|parts[0]| + 1..], sep)
      else
        parts == [s]
    decreases |s|
  {
    if s != [] && s[0] != sep {
      SplitFirst(s[1..], sep);
      var rest := Split(s[1..], sep);
      assert s == [s[0]] + s[1..];
      if sep in s {
        assert sep in s[1..];
        assert s[|rest[0]| + 2..] == s[1..][|rest[0]| + 1..];
      }
    }
  }

  /** `Split(s, sep)[1]` exists exactly when `s` contains `sep`. */
  lemma SplitHasSecond(s: string, sep: char)
    ensures |Split(s, sep)| >= 2 <==> sep in s
  {
    SplitFirst(s, sep);
  }

  /** `strings.Split(address, "@")[1]`, defined when the address holds an '@'. */
  function DomainOf(address: string): (d: string)
    requires '@' in address
    ensures '@' !in d && |d| < |address|
  {
    SplitFirst(address, '@');
    SplitFirst(address[|Split(address, '@')[0]| + 1..], '@');
    Split(address, '@')[1]
  }

  /** The domain is what follows the first '@', up to the next '@' or the end. */
  lemma DomainAfterFirstAt(address: string)
    requires '@' in address
    ensures var rest := address[IndexOf(address, '@') + 1..];
      var d := DomainOf(address);
      '@' !in d && d <= rest && (|d| == |rest| || rest[|d|] == '@')
  {
    var parts := Split(address, '@');
    SplitFirst(address, '@');
    var k := |parts[0]|;
    assert address[..k] == parts[0];
    IndexOfUnique(address, '@', k);
    var rest := address[k + 1..];
    SplitFirst(rest, '@');
    assert parts[1] == Split(rest, '@')[0];
  }

  /** Round trip: the domain of `local@domain` is `domain`, when neither part holds an '@'. */
  lemma DomainOfAddress(local: string, domain: string)
    requires '@' !in local && '@' !in domain
    ensures '@' in local + "@" + domain
    ensures DomainOf(local + "@" + domain) == domain
  {
    var address := local + "@" + domain;
    assert address[|local|] == '@';
    assert address[..|local|] == local;
    IndexOfUnique(address, '@', |local|);
    assert address[|local| + 1..] == domain;
    DomainAfterFirstAt(address);
  }
}
