/** The two ways the bot strips the transport scheme from a sender address:
    `s.split("whatsapp:")[-1]` (the message webhook, main.py:52, and the unused
    helper at main.py:140) and `s.replace("whatsapp:", "")` (the helpdesk webhook,
    main.py:175). */
module Text {

  /** The scheme prefix the messaging gateway puts in front of a phone number. */
  const Prefix: string := "whatsapp:"

  predicate StartsWith(s: string, p: string) {
    |p| <= |s| && s[..|p|] == p
  }

  /** Python's `p in s` for strings. */
  predicate Contains(s: string, p: string)
    decreases |s|
  {
    StartsWith(s, p) || (s != [] && Contains(s[1..], p))
  }

  /** `Contains` is substring containment: `s` splits around an occurrence of `p`. */
  lemma ContainsIsInfix(s: string, p: string)
    ensures Contains(s, p) <==> exists pre, post :: s == pre + p + post
  {
    if Contains(s, p) {
      var pre, post := OccurrenceOf(s, p);
    }
    if exists pre, post :: s == pre + p + post {
      var pre, post :| s == pre + p + post;
      InfixContained(pre, p, post);
    }
  }

  /** An occurrence of `p` in a string that contains it. */
  lemma {:induction false} OccurrenceOf(s: string, p: string) returns (pre: string, post: string)
    requires Contains(s, p)
    ensures s == pre + p + post
    decreases |s|
  {
    if StartsWith(s, p) {
      pre, post := [], s[|p|..];
      JoinAfter(s, |p|, [], [], post);
    } else {
      var pre', post' := OccurrenceOf(s[1..], p);
      JoinAfter(s, 1, pre', p, post');
      pre, post := s[..1] + pre', post';
    }
  }

  /** A string built around `p` contains it. */
  lemma {:induction false} InfixContained(pre: string, p: string, post: string)
    ensures Contains(pre + p + post, p)
    decreases |pre|
  {
    var s := pre + p + post;
    if pre == [] {
      assert s[..|p|] == p;
    } else {
      DropHead(pre, p + post);
      assert s[1..] == pre[1..] + p + post;
      InfixContained(pre[1..], p, post);
    }
  }

  /** Dropping the first character of a concatenation with a non-empty front. */
  lemma DropHead(a: string, b: string)
    requires a != []
    ensures (a + b)[1..] == a[1..] + b
  {
  }

  /** A string in which the first character of `p` never occurs does not contain `p`. */
  lemma {:induction false} MissingFirstCharNotContains(s: string, p: string)
    requires p != [] && p[0] !in s
    ensures !Contains(s, p)
    decreases |s|
  {
    if s != [] {
      assert s[0] in s;
      assert !StartsWith(s, p) by { assert s[0] != p[0]; }
      forall c | c in s[1..] ensures c in s { }
      MissingFirstCharNotContains(s[1..], p);
    }
  }

  /** Python's `s.split(p)[-1]` (p non-empty): the text after the last occurrence of
      `p`, found by the left-to-right scan `split` does, or all of `s` when `p` does
      not occur in it. */
  function SplitLast(s: string, p: string): string
    requires p != []
    decreases |s|
  {
    if StartsWith(s, p) then SplitLast(s[|p|..], p)
    else if s != [] && Contains(s[1..], p) then SplitLast(s[1..], p)
    else s
  }

  /** What `split(p)[-1]` leaves has no `p` in it, is all of `s` when `s` has no `p`,
      and otherwise is what follows an occurrence of `p` in `s`. */
  lemma SplitLastSpec(s: string, p: string)
    requires p != []
    ensures !Contains(SplitLast(s, p), p)
    ensures !Contains(s, p) ==> SplitLast(s, p) == s
    ensures Contains(s, p) ==> exists pre :: s == pre + p + SplitLast(s, p)
  {
    SplitLastClean(s, p);
    if Contains(s, p) {
      var pre := SplitLastSuffix(s, p);
    }
  }

  /** What `split(p)[-1]` leaves contains no `p`. */
  lemma {:induction false} SplitLastClean(s: string, p: string)
    requires p != []
    ensures !Contains(SplitLast(s, p), p)
    decreases |s|
  {
    if StartsWith(s, p) {
      SplitLastClean(s[|p|..], p);
    } else if s != [] && Contains(s[1..], p) {
      SplitLastClean(s[1..], p);
    }
  }

  /** When `s` contains `p`, what `split(p)[-1]` leaves follows an occurrence of `p`. */
  lemma {:induction false} SplitLastSuffix(s: string, p: string) returns (pre: string)
    requires p != [] && Contains(s, p)
    ensures s == pre + p + SplitLast(s, p)
    decreases |s|
  {
    var r := SplitLast(s, p);
    if StartsWith(s, p) {
      var rest := s[|p|..];
      if Contains(rest, p) {
        var pre' := SplitLastSuffix(rest, p);
        JoinAfter(s, |p|, pre', p, r);
        pre := s[..|p|] + pre';
      } else {
        assert r == SplitLast(rest, p) == rest;
        JoinAfter(s, |p|, [], [], rest);
        pre := [];
        assert s == pre + p + r;
      }
    } else {
      var pre' := SplitLastSuffix(s[1..], p);
      JoinAfter(s, 1, pre', p, r);
      pre := s[..1] + pre';
    }
  }

  /** Splitting off a head: when what follows the first `k` characters of `s` is
      `pre + p + r`, all of `s` is `(head + pre) + p + r`. */
  lemma JoinAfter(s: string, k: nat, pre: string, p: string, r: string)
    requires k <= |s| && s[k..] == pre + p + r
    ensures s == (s[..k] + pre) + p + r
  {
    assert s == s[..k] + s[k..];
  }

  /** Python's `s.replace(p, "")` (p non-empty): every occurrence found by a single
      left-to-right scan is deleted. */
  function RemoveAll(s: string, p: string): string
    requires p != []
    decreases |s|
  {
    if StartsWith(s, p) then RemoveAll(s[|p|..], p)
    else if s == [] then []
    else [s[0]] + RemoveAll(s[1..], p)
  }

  /** `replace` leaves a string without `p` untouched. */
  lemma {:induction false} RemoveAllWithout(s: string, p: string)
    requires p != [] && !Contains(s, p)
    ensures RemoveAll(s, p) == s
    decreases |s|
  {
    if s != [] {
      RemoveAllWithout(s[1..], p);
      assert [s[0]] + s[1..] == s;
    }
  }

  /** On the address form the gateway uses, `Prefix + number`, both normalisations
      yield the bare number, so both webhooks key the same sender. */
  lemma NormalisationsAgree(number: string)
    requires !Contains(number, Prefix)
    ensures SplitLast(Prefix + number, Prefix) == number
    ensures RemoveAll(Prefix + number, Prefix) == number
  {
    var s := Prefix + number;
    assert StartsWith(s, Prefix) && s[|Prefix|..] == number;
    SplitLastSpec(number, Prefix);
    RemoveAllWithout(number, Prefix);
  }

  /** In general the two normalisations differ: text in front of the prefix is
      dropped by `split` and kept by `replace`. */
  lemma NormalisationsDiffer()
    ensures SplitLast("x whatsapp:1", Prefix) == "1"
    ensures RemoveAll("x whatsapp:1", Prefix) == "x 1"
  {
    var a := "x whatsapp:1";
    assert !StartsWith(a, Prefix) by { assert a[0] != Prefix[0]; }
    assert !StartsWith(a[1..], Prefix) by { assert a[1] != Prefix[0]; }
    assert a[2..] == Prefix + "1";
    MissingFirstCharNotContains("1", Prefix);
    NormalisationsAgree("1");
    assert Contains(a[2..], Prefix) by { assert StartsWith(a[2..], Prefix); }
    assert Contains(a[1..], Prefix);
    assert SplitLast(a, Prefix) == SplitLast(a[1..], Prefix) == SplitLast(a[2..], Prefix);
    assert RemoveAll(a, Prefix) == "x" + RemoveAll(a[1..], Prefix);
    assert RemoveAll(a[1..], Prefix) == " " + RemoveAll(a[2..], Prefix);
  }
}
