/** Combining stored and newly detected opportunities by id: later records
    replace earlier ones with the same id. The source collects them in a
    map and lists the map in its (unspecified) iteration order; here the
    list is built by an in-place upsert, and every property is stated
    through lookup by id, so it does not depend on that order. */
module OpportunityMerge {
  import opened Common
  import opened Model

  /** No two records share an id. */
  predicate UniqueIds(s: seq<TradingOpportunity>)
  {
    forall i, j | 0 <= i < j < |s| :: s[i].id != s[j].id
  }

  predicate HasId(s: seq<TradingOpportunity>, id: string)
  {
    exists k | 0 <= k < |s| :: s[k].id == id
  }

  /** The first record with `id`. */
  function Find(s: seq<TradingOpportunity>, id: string): (r: Option<TradingOpportunity>)
    ensures r.None? <==> !HasId(s, id)
    ensures r.Some? ==> r.value in s && r.value.id == id
  {
    if |s| == 0 then None
    else if s[0].id == id then Some(s[0])
    else
      var rest := Find(s[1..], id);
      assert HasId(s, id) <==> HasId(s[1..], id) by {
        if HasId(s, id) {
          var k :| 0 <= k < |s| && s[k].id == id;
          assert s[1..][k - 1].id == id;
        }
        if HasId(s[1..], id) {
          var k :| 0 <= k < |s| - 1 && s[1..][k].id == id;
          assert s[k + 1].id == id;
        }
      }
      rest
  }

  /** The last record with `id`: the one a map keyed by id ends up holding. */
  function LastWithId(s: seq<TradingOpportunity>, id: string): (r: Option<TradingOpportunity>)
    ensures r.None? <==> !HasId(s, id)
    ensures r.Some? ==> r.value in s && r.value.id == id
  {
    if |s| == 0 then None
    else if s[|s| - 1].id == id then Some(s[|s| - 1])
    else
      var init := s[..|s| - 1];
      assert HasId(s, id) <==> HasId(init, id) by {
        if HasId(s, id) {
          var k :| 0 <= k < |s| && s[k].id == id;
          assert init[k].id == id;
        }
        if HasId(init, id) {
          var k :| 0 <= k < |init| && init[k].id == id;
          assert s[k].id == id;
        }
      }
      LastWithId(init, id)
  }

  /** In a list without repeated ids the first and the last record with an
      id are the same. */
  lemma {:induction false} UniqueFindIsLast(s: seq<TradingOpportunity>, id: string)
    requires UniqueIds(s)
    ensures LastWithId(s, id) == Find(s, id)
  {
    if |s| > 0 && s[|s| - 1].id != id {
      var init := s[..|s| - 1];
      UniqueFindIsLast(init, id);
      FindPrefix(s, id);
    } else if |s| > 0 {
      assert forall k | 0 <= k < |s| - 1 :: s[k].id != id;
      FindAt(s, id, |s| - 1);
    }
  }

  /** Looking up an id that the last record does not carry ignores that record. */
  lemma {:induction false} FindPrefix(s: seq<TradingOpportunity>, id: string)
    requires |s| > 0 && s[|s| - 1].id != id
    ensures Find(s, id) == Find(s[..|s| - 1], id)
  {
    if |s| > 1 && s[0].id != id {
      assert s[1..][..|s| - 2] == s[..|s| - 1][1..];
      FindPrefix(s[1..], id);
    }
  }

  /** Find returns the record at the first index carrying the id. */
  lemma {:induction false} FindAt(s: seq<TradingOpportunity>, id: string, k: int)
    requires 0 <= k < |s| && s[k].id == id
    requires forall m | 0 <= m < k :: s[m].id != id
    ensures Find(s, id) == Some(s[k])
  {
    if k > 0 {
      FindAt(s[1..], id, k - 1);
    }
  }

  /** The last record with an id in a concatenation: from the second part
      when it has one, otherwise from the first. */
  lemma {:induction false} LastWithIdAppend(a: seq<TradingOpportunity>, b: seq<TradingOpportunity>, id: string)
    ensures LastWithId(a + b, id) == if HasId(b, id) then LastWithId(b, id) else LastWithId(a, id)
    decreases |b|
  {
    if |b| == 0 {
      assert a + b == a;
    } else {
      assert (a + b)[..|a + b| - 1] == a + b[..|b| - 1];
      if b[|b| - 1].id != id {
        LastWithIdAppend(a, b[..|b| - 1], id);
      }
    }
  }

  /** Upsert: replace the record with the same id in place, or append the
      new one when its id is not yet present. */
  function Upsert(acc: seq<TradingOpportunity>, o: TradingOpportunity): (r: seq<TradingOpportunity>)
    requires UniqueIds(acc)
    ensures UniqueIds(r)
    ensures Find(r, o.id) == Some(o)
    ensures forall id | id != o.id :: Find(r, id) == Find(acc, id)
    ensures forall x | x in r :: x in acc || x == o
  {
    if |acc| == 0 then [o]
    else if acc[0].id == o.id then
      var r := [o] + acc[1..];
      assert forall k | 1 <= k < |r| :: r[k].id != o.id;
      r
    else
      var rest := Upsert(acc[1..], o);
      var r := [acc[0]] + rest;
      assert r[1..] == rest;
      assert forall x | x in rest :: x.id != acc[0].id;
      r
  }

  /** Upserting every record of `xs` in order. */
  function MergeAll(acc: seq<TradingOpportunity>, xs: seq<TradingOpportunity>): (r: seq<TradingOpportunity>)
    requires UniqueIds(acc)
    ensures UniqueIds(r)
    decreases |xs|
  {
    if |xs| == 0 then acc
    else Upsert(MergeAll(acc, xs[..|xs| - 1]), xs[|xs| - 1])
  }

  /** Merging invents no records. */
  lemma {:induction false} MergeAllMembers(acc: seq<TradingOpportunity>, xs: seq<TradingOpportunity>, x: TradingOpportunity)
    requires UniqueIds(acc)
    requires x in MergeAll(acc, xs)
    ensures x in acc || x in xs
    decreases |xs|
  {
    if |xs| > 0 {
      var init := xs[..|xs| - 1];
      assert xs == init + [xs[|xs| - 1]];
      if x != xs[|xs| - 1] {
        MergeAllMembers(acc, init, x);
      }
    }
  }

  /** After merging, each id holds its last record in `xs`, or its record
      in `acc` when `xs` does not mention it. */
  lemma {:induction false} MergeAllFind(acc: seq<TradingOpportunity>, xs: seq<TradingOpportunity>, id: string)
    requires UniqueIds(acc)
    ensures Find(MergeAll(acc, xs), id) == if HasId(xs, id) then LastWithId(xs, id) else Find(acc, id)
    decreases |xs|
  {
    if |xs| > 0 {
      var init := xs[..|xs| - 1];
      var last := xs[|xs| - 1];
      assert xs == init + [last];
      MergeAllFind(acc, init, id);
      HasIdSnoc(init, last, id);
    }
  }

  lemma HasIdSnoc(init: seq<TradingOpportunity>, last: TradingOpportunity, id: string)
    ensures HasId(init + [last], id) <==> HasId(init, id) || last.id == id
  {
    var xs := init + [last];
    if HasId(xs, id) && last.id != id {
      var k :| 0 <= k < |xs| && xs[k].id == id;
      assert init[k].id == id;
    }
    if HasId(init, id) {
      var k :| 0 <= k < |init| && init[k].id == id;
      assert xs[k].id == id;
    }
    if last.id == id {
      assert xs[|init|].id == id;
    }
  }

  /** The combination of the stored records with the new ones: one record
      per id, namely the last one listed for it, stored records first. */
  function Combine(existing: seq<TradingOpportunity>, newly: seq<TradingOpportunity>): (r: seq<TradingOpportunity>)
    ensures UniqueIds(r)
    ensures forall x | x in r :: x in existing || x in newly
    ensures forall id :: Find(r, id) == LastWithId(existing + newly, id)
  {
    var stored := MergeAll([], existing);
    var r := MergeAll(stored, newly);
    forall x | x in r
      ensures x in existing || x in newly
    {
      MergeAllMembers(stored, newly, x);
      if x !in newly {
        MergeAllMembers([], existing, x);
      }
    }
    forall id
      ensures Find(r, id) == LastWithId(existing + newly, id)
    {
      MergeAllFind([], existing, id);
      MergeAllFind(stored, newly, id);
      LastWithIdAppend(existing, newly, id);
    }
    r
  }

  /** A new record wins over a stored one with the same id. */
  lemma NewReplacesExisting(existing: seq<TradingOpportunity>, newly: seq<TradingOpportunity>, o: TradingOpportunity)
    requires UniqueIds(newly) && o in newly
    ensures Find(Combine(existing, newly), o.id) == Some(o)
  {
    var k :| 0 <= k < |newly| && newly[k] == o;
    LastWithIdAppend(existing, newly, o.id);
    UniqueFindIsLast(newly, o.id);
    FindAt(newly, o.id, k);
  }

  /** A stored record whose id no new record carries is kept unchanged. */
  lemma ExistingKept(existing: seq<TradingOpportunity>, newly: seq<TradingOpportunity>, o: TradingOpportunity)
    requires UniqueIds(existing) && o in existing && !HasId(newly, o.id)
    ensures Find(Combine(existing, newly), o.id) == Some(o)
  {
    var k :| 0 <= k < |existing| && existing[k] == o;
    LastWithIdAppend(existing, newly, o.id);
    UniqueFindIsLast(existing, o.id);
    FindAt(existing, o.id, k);
  }

  /** Every id of the inputs is present in the combination, and no other. */
  lemma CombineIds(existing: seq<TradingOpportunity>, newly: seq<TradingOpportunity>, id: string)
    ensures HasId(Combine(existing, newly), id) <==> HasId(existing, id) || HasId(newly, id)
  {
    LastWithIdAppend(existing, newly, id);
  }

  /** Combining the result with the same new records again changes no
      lookup: the merge is idempotent. */
  lemma CombineIdempotent(existing: seq<TradingOpportunity>, newly: seq<TradingOpportunity>, id: string)
    ensures Find(Combine(Combine(existing, newly), newly), id) == Find(Combine(existing, newly), id)
  {
    var once := Combine(existing, newly);
    LastWithIdAppend(once, newly, id);
    LastWithIdAppend(existing, newly, id);
    UniqueFindIsLast(once, id);
  }
}
