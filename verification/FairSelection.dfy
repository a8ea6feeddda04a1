/** Choosing candidates fairly over scopes: one from each scope in turn, best first. */
module FairSelection {
  import opened Neighborhood
  import opened Text

  /** `candidate.scope.trim() || "unspecified"` */
  function ScopeOf(c: Candidate): string {
    if Trim(c.scope) == "" then "unspecified" else Trim(c.scope)
  }

  /** The candidates of one scope, in rank order. */
  function Bucket(cs: seq<Candidate>, scope: string): (bucket: seq<Candidate>)
    ensures |bucket| <= |cs|
    ensures forall i :: 0 <= i < |bucket| ==> ScopeOf(bucket[i]) == scope
  {
    if cs == [] then []
    else if ScopeOf(cs[|cs| - 1]) == scope then Bucket(cs[..|cs| - 1], scope) + [cs[|cs| - 1]]
    else Bucket(cs[..|cs| - 1], scope)
  }

  function ScopeNames(cs: seq<Candidate>): (names: seq<string>)
    ensures |names| == |cs|
  {
    seq(|cs|, i requires 0 <= i < |cs| => ScopeOf(cs[i]))
  }

  /** The scopes, in order of first appearance. */
  function Scopes(cs: seq<Candidate>): (scopes: seq<string>)
    ensures forall i, j :: 0 <= i < j < |scopes| ==> scopes[i] != scopes[j]
  {
    Unique(ScopeNames(cs))
  }

  lemma ScopesCover(cs: seq<Candidate>)
    ensures forall i :: 0 <= i < |cs| ==> ScopeOf(cs[i]) in Scopes(cs)
  {
    hide ScopeOf;
    forall i | 0 <= i < |cs| ensures ScopeOf(cs[i]) in Scopes(cs) {
      assert ScopeNames(cs)[i] == ScopeOf(cs[i]);
    }
  }

  function Pick(bucket: seq<Candidate>, round: nat): seq<Candidate> {
    if round < |bucket| then [bucket[round]] else []
  }

  /** What the first p scopes give in one round. */
  function RoundPart(cs: seq<Candidate>, round: nat, p: nat): seq<Candidate>
    requires p <= |Scopes(cs)|
  {
    if p == 0 then [] else RoundPart(cs, round, p - 1) + Pick(Bucket(cs, Scopes(cs)[p - 1]), round)
  }

  function Rounds(cs: seq<Candidate>, rounds: nat): seq<Candidate> {
    if rounds == 0 then [] else Rounds(cs, rounds - 1) + RoundPart(cs, rounds - 1, |Scopes(cs)|)
  }

  /** What has been dealt after some whole rounds and p scopes of the next. */
  function Dealt(cs: seq<Candidate>, rounds: nat, p: nat): seq<Candidate>
    requires p <= |Scopes(cs)|
  {
    Rounds(cs, rounds) + RoundPart(cs, rounds, p)
  }

  /** All candidates in the order in which they are dealt. */
  function Interleaving(cs: seq<Candidate>): seq<Candidate> {
    Rounds(cs, |cs|)
  }

  function Selected(cs: seq<Candidate>, limit: int): seq<Candidate> {
    FirstN(Interleaving(cs), limit)
  }

  // ----- What a deal holds -----

  lemma {:induction false} BucketAppend(a: seq<Candidate>, b: seq<Candidate>, scope: string)
    ensures Bucket(a + b, scope) == Bucket(a, scope) + Bucket(b, scope)
    decreases |b|
  {
    hide ScopeOf;
    if b == [] {
      assert a + b == a;
    } else {
      assert (a + b)[|a + b| - 1] == b[|b| - 1];
      assert (a + b)[..|a + b| - 1] == a + b[..|b| - 1];
      BucketAppend(a, b[..|b| - 1], scope);
    }
  }

  lemma BucketOfPick(cs: seq<Candidate>, from: string, round: nat, scope: string)
    ensures Bucket(Pick(Bucket(cs, from), round), scope) == if from == scope then Pick(Bucket(cs, from), round) else []
  {
    var pick := Pick(Bucket(cs, from), round);
    if pick != [] {
      assert ScopeOf(pick[0]) == from;
      assert pick[..0] == [];
    }
  }

  lemma EmptyBucket(scope: string)
    ensures Bucket([], scope) == []
  {
  }

  lemma {:induction false} BucketOfRoundPart(cs: seq<Candidate>, round: nat, p: nat, i: nat)
    requires p <= |Scopes(cs)| && i < |Scopes(cs)|
    ensures Bucket(RoundPart(cs, round, p), Scopes(cs)[i]) ==
            if i < p then Pick(Bucket(cs, Scopes(cs)[i]), round) else []
  {
    hide ScopeOf, Scopes, Bucket, Pick;
    var scopes := Scopes(cs);
    if p == 0 {
      EmptyBucket(scopes[i]);
    } else {
      var pick := Pick(Bucket(cs, scopes[p - 1]), round);
      BucketOfRoundPart(cs, round, p - 1, i);
      BucketAppend(RoundPart(cs, round, p - 1), pick, scopes[i]);
      BucketOfPick(cs, scopes[p - 1], round, scopes[i]);
    }
  }

  function Least(a: nat, b: nat): nat {
    if a < b then a else b
  }

  lemma {:induction false} BucketOfRounds(cs: seq<Candidate>, rounds: nat, i: nat)
    requires i < |Scopes(cs)|
    ensures var bucket := Bucket(cs, Scopes(cs)[i]);
            Bucket(Rounds(cs, rounds), Scopes(cs)[i]) == bucket[..Least(rounds, |bucket|)]
  {
    hide ScopeOf, Scopes, RoundPart, Bucket;
    if rounds == 0 {
      EmptyBucket(Scopes(cs)[i]);
    } else {
      var scope := Scopes(cs)[i];
      BucketOfRounds(cs, rounds - 1, i);
      BucketOfRoundPart(cs, rounds - 1, |Scopes(cs)|, i);
      BucketAppend(Rounds(cs, rounds - 1), RoundPart(cs, rounds - 1, |Scopes(cs)|), scope);
    }
  }

  /** How many candidates a scope has been given. */
  function Share(cs: seq<Candidate>, rounds: nat, p: nat, i: nat): nat
    requires i < |Scopes(cs)|
  {
    Least(if i < p then rounds + 1 else rounds, |Bucket(cs, Scopes(cs)[i])|)
  }

  lemma BucketOfDeal(cs: seq<Candidate>, rounds: nat, p: nat, i: nat)
    requires p <= |Scopes(cs)| && i < |Scopes(cs)|
    ensures Bucket(Dealt(cs, rounds, p), Scopes(cs)[i]) == Bucket(cs, Scopes(cs)[i])[..Share(cs, rounds, p, i)]
  {
    hide ScopeOf, Scopes, RoundPart, Rounds;
    var bucket := Bucket(cs, Scopes(cs)[i]);
    BucketOfRounds(cs, rounds, i);
    BucketOfRoundPart(cs, rounds, p, i);
    BucketAppend(Rounds(cs, rounds), RoundPart(cs, rounds, p), Scopes(cs)[i]);
    if i < p && rounds < |bucket| {
      assert bucket[..rounds] + [bucket[rounds]] == bucket[..rounds + 1];
    }
  }

  // ----- Every prefix of the interleaving is a deal -----

  /** The deal at which a given number of candidates has been given out. */
  lemma {:induction false} DealOfLengthInRound(cs: seq<Candidate>, round: nat, p: nat, n: nat) returns (q: nat)
    requires p <= |Scopes(cs)| && n <= |RoundPart(cs, round, p)|
    ensures q <= p && RoundPart(cs, round, q) == RoundPart(cs, round, p)[..n]
  {
    hide Scopes, Bucket, ScopeOf;
    if n == |RoundPart(cs, round, p)| {
      q := p;
    } else {
      var before := RoundPart(cs, round, p - 1);
      assert RoundPart(cs, round, p) == before + Pick(Bucket(cs, Scopes(cs)[p - 1]), round);
      assert n <= |before| && RoundPart(cs, round, p)[..n] == before[..n];
      q := DealOfLengthInRound(cs, round, p - 1, n);
    }
  }

  lemma {:induction false} DealOfLength(cs: seq<Candidate>, rounds: nat, n: nat) returns (r: nat, p: nat)
    requires n <= |Rounds(cs, rounds)|
    ensures p <= |Scopes(cs)| && Dealt(cs, r, p) == Rounds(cs, rounds)[..n]
  {
    hide Scopes, RoundPart;
    if rounds == 0 || n == |Rounds(cs, rounds)| {
      r, p := rounds, 0;
      assert RoundPart(cs, rounds, 0) == [] by { EmptyPart(cs, rounds); }
    } else if n <= |Rounds(cs, rounds - 1)| {
      r, p := DealOfLength(cs, rounds - 1, n);
    } else {
      var before := |Rounds(cs, rounds - 1)|;
      r := rounds - 1;
      p := DealOfLengthInRound(cs, r, |Scopes(cs)|, n - before);
      assert Rounds(cs, rounds)[..n] == Rounds(cs, r) + RoundPart(cs, r, |Scopes(cs)|)[..n - before];
    }
  }

  lemma EmptyPart(cs: seq<Candidate>, round: nat)
    ensures RoundPart(cs, round, 0) == []
  {
  }

  // ----- The interleaving holds every candidate -----

  function Total(cs: seq<Candidate>, scopes: seq<string>): nat {
    if scopes == [] then 0 else |Bucket(cs, scopes[0])| + Total(cs, scopes[1..])
  }

  lemma {:induction false} TotalGrows(cs: seq<Candidate>, c: Candidate, scopes: seq<string>)
    requires forall i, j :: 0 <= i < j < |scopes| ==> scopes[i] != scopes[j]
    ensures Total(cs + [c], scopes) == Total(cs, scopes) + if ScopeOf(c) in scopes then 1 else 0
  {
    hide ScopeOf;
    if scopes != [] {
      assert (cs + [c])[..|cs|] == cs;
      TotalGrows(cs, c, scopes[1..]);
      assert scopes[0] !in scopes[1..];
      assert scopes == [scopes[0]] + scopes[1..];
    }
  }

  lemma {:induction false} TotalIsLength(cs: seq<Candidate>, scopes: seq<string>)
    requires forall i, j :: 0 <= i < j < |scopes| ==> scopes[i] != scopes[j]
    requires forall i :: 0 <= i < |cs| ==> ScopeOf(cs[i]) in scopes
    ensures Total(cs, scopes) == |cs|
  {
    hide ScopeOf;
    if cs == [] {
      EmptyTotal(scopes);
    } else {
      var front := cs[..|cs| - 1];
      TotalIsLength(front, scopes);
      TotalGrows(front, cs[|cs| - 1], scopes);
      assert front + [cs[|cs| - 1]] == cs;
    }
  }

  lemma EmptyTotal(scopes: seq<string>)
    ensures Total([], scopes) == 0
  {
  }

  lemma {:induction false} SameTotal(a: seq<Candidate>, b: seq<Candidate>, scopes: seq<string>)
    requires forall i :: 0 <= i < |scopes| ==> Bucket(a, scopes[i]) == Bucket(b, scopes[i])
    ensures Total(a, scopes) == Total(b, scopes)
  {
    hide Bucket;
    if scopes != [] {
      forall i | 0 <= i < |scopes| - 1 ensures Bucket(a, scopes[1..][i]) == Bucket(b, scopes[1..][i]) {
        assert scopes[1..][i] == scopes[i + 1];
      }
      SameTotal(a, b, scopes[1..]);
    }
  }

  lemma {:induction false} PartScopes(cs: seq<Candidate>, round: nat, p: nat)
    requires p <= |Scopes(cs)|
    ensures forall i :: 0 <= i < |RoundPart(cs, round, p)| ==> ScopeOf(RoundPart(cs, round, p)[i]) in Scopes(cs)
  {
    hide ScopeOf, Scopes;
    if p > 0 {
      PartScopes(cs, round, p - 1);
    }
  }

  lemma {:induction false} RoundsScopes(cs: seq<Candidate>, rounds: nat)
    ensures forall i :: 0 <= i < |Rounds(cs, rounds)| ==> ScopeOf(Rounds(cs, rounds)[i]) in Scopes(cs)
  {
    hide ScopeOf, Scopes, RoundPart;
    if rounds > 0 {
      RoundsScopes(cs, rounds - 1);
      PartScopes(cs, rounds - 1, |Scopes(cs)|);
    }
  }

  lemma InterleavingIsComplete(cs: seq<Candidate>)
    ensures |Interleaving(cs)| == |cs|
    ensures forall i :: 0 <= i < |Scopes(cs)| ==> Bucket(Interleaving(cs), Scopes(cs)[i]) == Bucket(cs, Scopes(cs)[i])
  {
    hide ScopeOf, Scopes, Rounds, Bucket, Total;
    var scopes := Scopes(cs);
    forall i | 0 <= i < |scopes| ensures Bucket(Interleaving(cs), scopes[i]) == Bucket(cs, scopes[i]) {
      BucketOfRounds(cs, |cs|, i);
    }
    SameTotal(Interleaving(cs), cs, scopes);
    RoundsScopes(cs, |cs|);
    TotalIsLength(Interleaving(cs), scopes);
    ScopesCover(cs);
    TotalIsLength(cs, scopes);
  }

  /** The selection has as many candidates as the limit allows, takes the best of each scope, and no scope is more
      than one ahead of another that still has candidates left. */
  lemma SelectionIsFair(cs: seq<Candidate>, limit: int)
    ensures |Selected(cs, limit)| == if limit < 0 then 0 else Least(limit, |cs|)
    ensures forall i :: 0 <= i < |Scopes(cs)| ==>
              Bucket(Selected(cs, limit), Scopes(cs)[i]) <= Bucket(cs, Scopes(cs)[i])
    ensures forall i, j :: 0 <= i < |Scopes(cs)| && 0 <= j < |Scopes(cs)| ==>
              || |Bucket(Selected(cs, limit), Scopes(cs)[i])| <= |Bucket(Selected(cs, limit), Scopes(cs)[j])| + 1
              || Bucket(Selected(cs, limit), Scopes(cs)[j]) == Bucket(cs, Scopes(cs)[j])
  {
    hide ScopeOf, Scopes, Rounds, Bucket, Dealt;
    InterleavingIsComplete(cs);
    var n := |Selected(cs, limit)|;
    var r, p := DealOfLength(cs, |cs|, n);
    assert Selected(cs, limit) == Dealt(cs, r, p);
    forall i | 0 <= i < |Scopes(cs)|
      ensures Bucket(Selected(cs, limit), Scopes(cs)[i]) == Bucket(cs, Scopes(cs)[i])[..Share(cs, r, p, i)]
    {
      BucketOfDeal(cs, r, p, i);
    }
  }

  // ----- What the buckets are -----

  /** Outer white space does not matter for a scope, and candidates without one share a scope of their own. */
  predicate InScope(c: Candidate, scope: string) {
    if Trim(c.scope) == "" then scope == "unspecified" else Trim(c.scope) == scope
  }

  /** A bucket holds exactly the candidates of its scope, in the order in which they were ranked. */
  lemma {:induction false} BucketIs(cs: seq<Candidate>, scope: string) returns (at: seq<nat>)
    ensures |at| == |Bucket(cs, scope)|
    ensures forall i :: 0 <= i < |at| ==> at[i] < |cs| && Bucket(cs, scope)[i] == cs[at[i]]
    ensures forall i, j :: 0 <= i < j < |at| ==> at[i] < at[j]
    ensures forall p :: 0 <= p < |cs| ==> (p in at <==> InScope(cs[p], scope))
  {
    hide ScopeOf, InScope;
    at := [];
    if cs != [] {
      var n := |cs| - 1;
      var front := cs[..n];
      assert forall p :: 0 <= p < n ==> front[p] == cs[p];
      at := BucketIs(front, scope);
      ScopeIs(cs[n], scope);
      if InScope(cs[n], scope) {
        at := at + [n];
      }
    }
  }

  lemma ScopeIs(c: Candidate, scope: string)
    ensures ScopeOf(c) == scope <==> InScope(c, scope)
  {
    hide Trim;
  }

  ghost predicate FirstOfScope(cs: seq<Candidate>, p: nat, scope: string) {
    && p < |cs| && InScope(cs[p], scope)
    && forall q :: 0 <= q < p ==> !InScope(cs[q], scope)
  }

  /** The scopes are those of the candidates, in the order in which they first appear. */
  lemma ScopesAre(cs: seq<Candidate>)
    ensures forall scope :: scope in Scopes(cs) <==> exists p: nat :: FirstOfScope(cs, p, scope)
    ensures forall i, j, p: nat, q: nat :: 0 <= i < j < |Scopes(cs)| ==>
              (FirstOfScope(cs, p, Scopes(cs)[i]) && FirstOfScope(cs, q, Scopes(cs)[j]) ==> p < q)
  {
    hide Trim, Unique;
    forall scope ensures scope in Scopes(cs) <==> exists p: nat :: FirstOfScope(cs, p, scope) {
      if scope in Scopes(cs) {
        var p :| 0 <= p < |cs| && ScopeNames(cs)[p] == scope;
        var first := FirstFrom(cs, p, scope);
      }
      if p: nat :| FirstOfScope(cs, p, scope) {
        assert ScopeNames(cs)[p] == scope;
      }
    }
    forall i, j, p: nat, q: nat | 0 <= i < j < |Scopes(cs)| && FirstOfScope(cs, p, Scopes(cs)[i]) &&
                                  FirstOfScope(cs, q, Scopes(cs)[j])
      ensures p < q
    {
      assert ScopeNames(cs)[q] == Scopes(cs)[j];
      UniqueInOrder(ScopeNames(cs), i, j, q);
      var k :| 0 <= k < q + 1 && ScopeNames(cs)[k] == Scopes(cs)[i];
      assert InScope(cs[k], Scopes(cs)[i]) && k != q;
    }
  }

  lemma FirstFrom(cs: seq<Candidate>, p: nat, scope: string) returns (first: nat)
    requires p < |cs| && InScope(cs[p], scope)
    ensures FirstOfScope(cs, first, scope)
  {
    hide InScope;
    if q :| 0 <= q < p && InScope(cs[q], scope) {
      first := FirstFrom(cs, q, scope);
    } else {
      first := p;
    }
  }

  // ----- The loop -----

  lemma {:induction false} RoundsGrow(cs: seq<Candidate>, r: nat, rounds: nat)
    requires r <= rounds
    ensures Rounds(cs, r) <= Rounds(cs, rounds)
  {
    hide RoundPart, Scopes;
    if r < rounds {
      RoundsGrow(cs, r, rounds - 1);
    }
  }

  lemma {:induction false} PartsGrow(cs: seq<Candidate>, round: nat, p: nat, q: nat)
    requires p <= q <= |Scopes(cs)|
    ensures RoundPart(cs, round, p) <= RoundPart(cs, round, q)
  {
    hide Pick, Bucket, Scopes;
    if p < q {
      PartsGrow(cs, round, p, q - 1);
    }
  }

  /** Nothing more is dealt once a round has given nothing. */
  lemma {:induction false} NothingAfterEmptyRound(cs: seq<Candidate>, r: nat, rounds: nat)
    requires r <= rounds && forall i :: 0 <= i < |Scopes(cs)| ==> |Bucket(cs, Scopes(cs)[i])| <= r
    ensures Rounds(cs, rounds) == Rounds(cs, r)
  {
    hide RoundPart, Scopes, Bucket;
    if r < rounds {
      NothingAfterEmptyRound(cs, r, rounds - 1);
      EmptyRound(cs, rounds - 1, |Scopes(cs)|);
    }
  }

  lemma {:induction false} EmptyRound(cs: seq<Candidate>, round: nat, p: nat)
    requires p <= |Scopes(cs)| && forall i :: 0 <= i < |Scopes(cs)| ==> |Bucket(cs, Scopes(cs)[i])| <= round
    ensures RoundPart(cs, round, p) == []
  {
    hide Scopes, Bucket;
    if p > 0 {
      EmptyRound(cs, round, p - 1);
    }
  }

  /** Dealing stops with the whole interleaving, or with as much of it as was asked for. */
  lemma DealIsSelection(cs: seq<Candidate>, r: nat, p: nat, limit: int)
    requires p <= |Scopes(cs)|
    requires |Dealt(cs, r, p)| == limit ||
               (p == 0 && |Dealt(cs, r, p)| <= limit && forall i :: 0 <= i < |Scopes(cs)| ==>
                   |Bucket(cs, Scopes(cs)[i])| <= r)
    ensures Selected(cs, limit) == Dealt(cs, r, p)
  {
    hide RoundPart, Scopes, Bucket, Rounds;
    var far := if r + 1 < |cs| then |cs| else r + 1;
    FarRounds(cs, far);
    if |Dealt(cs, r, p)| == limit {
      PartsGrow(cs, r, p, |Scopes(cs)|);
      RoundIs(cs, r);
      assert Dealt(cs, r, p) <= Rounds(cs, r + 1);
      RoundsGrow(cs, r + 1, far);
    } else {
      NothingAfterEmptyRound(cs, r, far);
      EmptyPart(cs, r);
    }
  }

  lemma RoundIs(cs: seq<Candidate>, r: nat)
    ensures Rounds(cs, r + 1) == Rounds(cs, r) + RoundPart(cs, r, |Scopes(cs)|)
  {
  }

  lemma FarRounds(cs: seq<Candidate>, far: nat)
    requires far >= |cs|
    ensures Rounds(cs, far) == Interleaving(cs)
  {
    hide Scopes, Rounds;
    NothingAfterEmptyRound(cs, |cs|, far);
  }

  /** What is left of the buckets after r rounds and p scopes of the next. */
  ghost predicate Left(cs: seq<Candidate>, buckets: map<string, seq<Candidate>>, r: nat, p: nat) {
    forall i :: 0 <= i < |Scopes(cs)| ==> LeftAt(cs, buckets, if i < p then r + 1 else r, Scopes(cs)[i])
  }

  predicate LeftAt(cs: seq<Candidate>, buckets: map<string, seq<Candidate>>, n: nat, scope: string) {
    scope in buckets && buckets[scope] == Rest(Bucket(cs, scope), n)
  }

  function Rest(bucket: seq<Candidate>, n: nat): seq<Candidate> {
    if n <= |bucket| then bucket[n..] else []
  }

  method FillBuckets(cs: seq<Candidate>) returns (scopeOrder: seq<string>, buckets: map<string, seq<Candidate>>)
    ensures scopeOrder == Scopes(cs) && Left(cs, buckets, 0, 0)
  {
    hide ScopeOf;
    buckets, scopeOrder := map[], [];
    assert ScopeNames(cs[..0]) == [];
    for i := 0 to |cs|
      invariant scopeOrder == Scopes(cs[..i])
      invariant forall s :: s in buckets <==> s in scopeOrder
      invariant forall s :: s in buckets ==> buckets[s] == Bucket(cs[..i], s)
      invariant forall s :: s !in buckets ==> Bucket(cs[..i], s) == []
    {
      var scope := ScopeOf(cs[i]);
      var front := cs[..i + 1];
      assert front[..i] == cs[..i] && front[i] == cs[i];
      assert ScopeNames(front)[..i] == ScopeNames(cs[..i]);
      if scope in buckets {
        buckets := buckets[scope := buckets[scope] + [cs[i]]];
      } else {
        buckets := buckets[scope := [cs[i]]];
        scopeOrder := scopeOrder + [scope];
      }
    }
    assert cs[..|cs|] == cs;
  }

  lemma DealStep(cs: seq<Candidate>, r: nat, p: nat)
    requires p < |Scopes(cs)|
    ensures Dealt(cs, r, p + 1) == Dealt(cs, r, p) + Pick(Bucket(cs, Scopes(cs)[p]), r)
  {
    hide Scopes, Bucket, Pick, Rounds;
  }

  lemma RoundDone(cs: seq<Candidate>, buckets: map<string, seq<Candidate>>, r: nat)
    ensures Dealt(cs, r, |Scopes(cs)|) == Dealt(cs, r + 1, 0)
    ensures Left(cs, buckets, r, |Scopes(cs)|) ==> Left(cs, buckets, r + 1, 0)
  {
    hide Scopes, Bucket, Rest;
    EmptyPart(cs, r + 1);
  }

  lemma LeftSkips(cs: seq<Candidate>, buckets: map<string, seq<Candidate>>, r: nat, p: nat)
    requires p < |Scopes(cs)| && Left(cs, buckets, r, p)
    requires Scopes(cs)[p] in buckets && buckets[Scopes(cs)[p]] == []
    ensures Left(cs, buckets, r, p + 1) && |Bucket(cs, Scopes(cs)[p])| <= r && Dealt(cs, r, p + 1) == Dealt(cs, r, p)
  {
    hide Scopes, Bucket, Dealt;
    DealStep(cs, r, p);
    assert LeftAt(cs, buckets, r, Scopes(cs)[p]);
  }

  lemma LeftTakes(cs: seq<Candidate>, buckets: map<string, seq<Candidate>>, r: nat, p: nat)
    requires p < |Scopes(cs)| && Left(cs, buckets, r, p)
    requires Scopes(cs)[p] in buckets && buckets[Scopes(cs)[p]] != []
    ensures var scope := Scopes(cs)[p];
            && Left(cs, buckets[scope := buckets[scope][1..]], r, p + 1)
            && Dealt(cs, r, p + 1) == Dealt(cs, r, p) + [buckets[scope][0]]
  {
    hide Scopes, Bucket, Dealt, LeftAt;
    DealStep(cs, r, p);
    ScopesDiffer(cs);
    var scopes := Scopes(cs);
    TakeFrom(cs, buckets, r, scopes[p]);
    var next := buckets[scopes[p] := buckets[scopes[p]][1..]];
    forall i | 0 <= i < |scopes| ensures LeftAt(cs, next, if i < p + 1 then r + 1 else r, scopes[i]) {
      if i != p {
        OthersKeep(cs, buckets, if i < p then r + 1 else r, scopes[i], scopes[p], next);
      }
    }
  }

  lemma TakeFrom(cs: seq<Candidate>, buckets: map<string, seq<Candidate>>, r: nat, scope: string)
    requires LeftAt(cs, buckets, r, scope) && buckets[scope] != []
    ensures LeftAt(cs, buckets[scope := buckets[scope][1..]], r + 1, scope)
    ensures Pick(Bucket(cs, scope), r) == [buckets[scope][0]]
  {
    hide Bucket;
  }

  lemma OthersKeep(cs: seq<Candidate>, buckets: map<string, seq<Candidate>>, n: nat, scope: string, other: string,
                   next: map<string, seq<Candidate>>)
    requires LeftAt(cs, buckets, n, scope) && other in buckets && other != scope && buckets[other] != []
    requires next == buckets[other := buckets[other][1..]]
    ensures LeftAt(cs, next, n, scope)
  {
    hide Bucket;
  }

  lemma ScopesDiffer(cs: seq<Candidate>)
    ensures forall i, j :: 0 <= i < j < |Scopes(cs)| ==> Scopes(cs)[i] != Scopes(cs)[j]
  {
  }

  method SelectHierarchicalCandidates(cs: seq<Candidate>, limit: int) returns (selected: seq<Candidate>)
    ensures selected == Selected(cs, limit)
  {
    hide ScopeOf, Scopes, Bucket, Rounds, Dealt, Left, Selected;
    var scopeOrder, buckets := FillBuckets(cs);
    selected := [];
    var progress := true;
    ghost var r := 0;
    StartsEmpty(cs, limit);
    while |selected| < limit && progress
      invariant limit >= 0 ==> |selected| <= limit
      invariant limit < 0 ==> selected == []
      invariant |selected| < limit && progress ==> selected == Dealt(cs, r, 0) && Left(cs, buckets, r, 0)
      invariant 0 <= limit && (|selected| == limit || !progress) ==> selected == Selected(cs, limit)
      decreases limit - |selected|, progress
    {
      progress := false;
      ghost var q := 0;
      ghost var start := |selected|;
      for p := 0 to |scopeOrder|
        invariant start <= |selected| <= limit
        invariant q <= p && selected == Dealt(cs, r, q)
        invariant |selected| < limit ==> q == p && Left(cs, buckets, r, p)
        invariant progress ==> |selected| > start
        invariant !progress ==> |selected| < limit && forall i :: 0 <= i < p ==> |Bucket(cs, Scopes(cs)[i])| <= r
      {
        var scope := scopeOrder[p];
        if |selected| >= limit {
          continue;
        }
        LeftHas(cs, buckets, r, p);
        q := p + 1;
        if |buckets[scope]| == 0 {
          LeftSkips(cs, buckets, r, p);
          continue;
        }
        LeftTakes(cs, buckets, r, p);
        selected := selected + [buckets[scope][0]];
        buckets := buckets[scope := buckets[scope][1..]];
        progress := true;
      }
      RoundDone(cs, buckets, r);
      if |selected| == limit {
        DealIsSelection(cs, r, q, limit);
      } else if !progress {
        DealIsSelection(cs, r + 1, 0, limit);
      }
      r := r + 1;
    }
    if limit < 0 {
      NothingSelected(cs, limit);
    }
    selected := FirstN(selected, limit);
  }

  lemma LeftHas(cs: seq<Candidate>, buckets: map<string, seq<Candidate>>, r: nat, p: nat)
    requires p < |Scopes(cs)| && Left(cs, buckets, r, p)
    ensures Scopes(cs)[p] in buckets
  {
  }

  lemma StartsEmpty(cs: seq<Candidate>, limit: int)
    ensures Dealt(cs, 0, 0) == [] && (limit == 0 ==> Selected(cs, limit) == [])
  {
  }

  lemma NothingSelected(cs: seq<Candidate>, limit: int)
    requires limit < 0
    ensures Selected(cs, limit) == []
  {
  }
}
