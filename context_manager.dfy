/** The per-session state of the agent (`agent/context_manager.py`): a bounded
    history of turns, the filters accumulated across turns, and the set of
    rejected product ids. */
module ContextManagement {
  import opened Types
  import opened Text
  import Config

  /** Every list key that is present holds a list (what `update_filters` stores). */
  predicate ListKeysHoldLists(f: Filters)
  {
    forall k :: k in f && k in ListKeys ==> f[k].Many?
  }

  /** `accumulated.get(key, []) or []` for a list key. */
  function StoredList(v: Value): seq<Atom>
    requires v == Null || v.Many?
  {
    if v.Many? then v.items else []
  }

  /** `value if isinstance(value, list) else [value]`: a scalar becomes a one-element list. */
  function AsList(v: Value): (r: seq<Atom>)
    requires v != Null
    ensures v.One? ==> r == [v.atom]
  {
    match v
    case Many(items) => items
    case One(a) => [a]
  }

  /** The new value stored under `k` when `v` (not `None`) is merged in. */
  function UpdatedEntry(acc: Filters, k: string, v: Value): Value
    requires ListKeysHoldLists(acc) && v != Null
  {
    if k in ListKeys then Many(Dedup(StoredList(Get(acc, k)) + AsList(v))) else v
  }

  /** The accumulated filters after `update_filters(incoming)`. */
  function UpdatedFilters(acc: Filters, incoming: Filters): (r: Filters)
    requires ListKeysHoldLists(acc)
    ensures r.Keys == acc.Keys + Written(incoming)
    ensures ListKeysHoldLists(r)
    ensures forall k :: k in acc && k !in Written(incoming) ==> r[k] == acc[k]
    ensures forall k :: k in Written(incoming) && k !in ListKeys ==> r[k] == incoming[k]
  {
    map k | k in acc.Keys + Written(incoming) ::
      if k in Written(incoming) then UpdatedEntry(acc, k, incoming[k]) else acc[k]
  }

  /** For a list key, the merged list is the duplicate-free union of the stored
      list and the new one (a scalar counting as a one-element list), so it
      contains both. */
  lemma UpdateUnitesLists(acc: Filters, incoming: Filters, k: string)
    requires ListKeysHoldLists(acc)
    requires k in ListKeys && k in incoming && incoming[k] != Null
    ensures k in UpdatedFilters(acc, incoming)
    ensures UpdatedFilters(acc, incoming)[k].Many?
    ensures Elems(UpdatedFilters(acc, incoming)[k].items)
         == Elems(StoredList(Get(acc, k))) + Elems(AsList(incoming[k]))
    ensures Distinct(UpdatedFilters(acc, incoming)[k].items)
  {
    assert k in Written(incoming);
    ElemsConcat(StoredList(Get(acc, k)), AsList(incoming[k]));
  }

  /** Applying the same update twice gives the filters that applying it once gives. */
  lemma UpdateIdempotent(acc: Filters, incoming: Filters)
    requires ListKeysHoldLists(acc)
    ensures UpdatedFilters(UpdatedFilters(acc, incoming), incoming) == UpdatedFilters(acc, incoming)
  {
    var once := UpdatedFilters(acc, incoming);
    var twice := UpdatedFilters(once, incoming);
    forall k | k in Written(incoming) && k in ListKeys
      ensures twice[k] == once[k]
    {
      var stored := StoredList(Get(acc, k));
      var added := AsList(incoming[k]);
      var d := Dedup(stored + added);
      assert once[k] == Many(d);
      ElemsConcat(stored, added);
      DedupAbsorbs(d, added);
    }
    assert twice.Keys == once.Keys;
  }

  /** Merging well-typed filters into well-typed filters keeps every schema
      key at its declared type. */
  lemma UpdatedWellFormed(acc: Filters, incoming: Filters)
    requires ListKeysHoldLists(acc) && WellFormed(acc) && WellFormed(incoming)
    ensures WellFormed(UpdatedFilters(acc, incoming))
  {
    var r := UpdatedFilters(acc, incoming);
    WellFormedByKey(acc);
    WellFormedByKey(incoming);
    forall k
      ensures ValueTyped(k, Get(r, k))
    {
      UpdatedKeyTyped(acc, incoming, k);
    }
    WellFormedByKey(r);
  }

  /** One key of `UpdatedWellFormed`: the merged value keeps the key's type. */
  lemma UpdatedKeyTyped(acc: Filters, incoming: Filters, k: string)
    requires ListKeysHoldLists(acc)
    requires ValueTyped(k, Get(acc, k)) && ValueTyped(k, Get(incoming, k))
    ensures ValueTyped(k, Get(UpdatedFilters(acc, incoming), k))
  {
    if k in Written(incoming) && k in ListKeys {
      var a := StoredList(Get(acc, k));
      var b := AsList(incoming[k]);
      ElemsConcat(a, b);
      forall x: Atom | x in Dedup(a + b)
        ensures x.Str?
      {
        assert x in Elems(Dedup(a + b));
      }
    }
  }

  /** Keeping the last `n` of the last `n` plus one more turn is keeping the last
      `n` of everything plus that turn: the retained history is always the most
      recent turns, in order. */
  lemma {:induction false} LastNAppend<T>(s: seq<T>, x: T, n: nat)
    requires n > 0
    ensures LastN(LastN(s, n) + [x], n) == LastN(s + [x], n)
  {
    var t := LastN(s, n);
    if |s| > n {
      assert t + [x] == (s + [x])[|s| - n..];
      assert LastN(t + [x], n) == (s + [x])[|s| - n..][1..];
      assert (s + [x])[|s| - n..][1..] == (s + [x])[|s| + 1 - n..];
    }
  }

  /** The session context (`ContextManager`). */
  class ContextManager {
    var history: seq<Turn>
    var filters: Filters
    var rejected: set<string>

    /** The history is bounded and the list keys hold lists. */
    predicate Valid()
      reads this
    {
      |history| <= Config.MaxConversationHistory && ListKeysHoldLists(filters)
    }

    constructor ()
      ensures Valid()
      ensures history == [] && filters == map[] && rejected == {}
    {
      history := [];
      filters := map[];
      rejected := {};
    }

    /** `add_turn`: append the turn and keep only the last
        `MAX_CONVERSATION_HISTORY` turns. */
    method AddTurn(user: string, agent: string)
      requires Valid()
      modifies this
      ensures Valid()
      ensures history == LastN(old(history) + [Turn(user, agent)], Config.MaxConversationHistory)
      ensures history[|history| - 1] == Turn(user, agent)
      ensures filters == old(filters) && rejected == old(rejected)
    {
      history := history + [Turn(user, agent)];
      if |history| > Config.MaxConversationHistory {
        history := history[|history| - Config.MaxConversationHistory..];
      }
    }

    /** `update_filters`: non-`None` scalars override, list keys are united. */
    method UpdateFilters(incoming: Filters)
      requires Valid()
      modifies this
      ensures Valid()
      ensures filters == UpdatedFilters(old(filters), incoming)
      ensures history == old(history) && rejected == old(rejected)
    {
      var pending := incoming.Keys;
      ghost var done: set<string> := {};
      while pending != {}
        invariant pending !! done && pending + done == incoming.Keys
        invariant ListKeysHoldLists(filters)
        invariant filters == UpdatedFilters(old(filters), Restrict(incoming, done))
        invariant history == old(history) && rejected == old(rejected)
        decreases pending
      {
        var k :| k in pending;
        var v := incoming[k];
        UpdateStep(old(filters), incoming, done, k);
        if v != Null {
          if k in ListKeys {
            var existing := StoredList(Get(filters, k));
            var newList := AsList(v);
            filters := filters[k := Many(Dedup(existing + newList))];
          } else {
            filters := filters[k := v];
          }
        }
        pending := pending - {k};
        done := done + {k};
      }
      assert Restrict(incoming, done) == incoming;
    }

    /** `mark_rejected`: the rejected set grows by `id`. */
    method MarkRejected(id: string)
      requires Valid()
      modifies this
      ensures Valid()
      ensures rejected == old(rejected) + {id}
      ensures history == old(history) && filters == old(filters)
    {
      rejected := rejected + {id};
    }

    /** `get_filters`, `get_history`, `get_rejected_ids`: Dafny values are
        immutable, so what these return is already a copy. */
    function GetFilters(): (f: Filters)
      reads this
      ensures f == filters
    {
      filters
    }

    function GetHistory(): (h: seq<Turn>)
      reads this
      ensures h == history
    {
      history
    }

    function GetRejectedIds(): (ids: set<string>)
      reads this
      ensures ids == rejected
    {
      rejected
    }

    /** `reset`: a fresh session. */
    method Reset()
      modifies this
      ensures Valid()
      ensures history == [] && filters == map[] && rejected == {}
    {
      history := [];
      filters := map[];
      rejected := {};
    }

    /** `clear_filters`: only the filters are emptied. */
    method ClearFilters()
      requires Valid()
      modifies this
      ensures Valid()
      ensures filters == map[]
      ensures history == old(history) && rejected == old(rejected)
    {
      filters := map[];
    }
  }

  /** One iteration of `update_filters`' loop: merging one more key of
      `incoming` changes exactly that key's entry. */
  lemma UpdateStep(acc: Filters, incoming: Filters, done: set<string>, k: string)
    requires ListKeysHoldLists(acc)
    requires done <= incoming.Keys && k in incoming && k !in done
    ensures var before := UpdatedFilters(acc, Restrict(incoming, done));
            var after := UpdatedFilters(acc, Restrict(incoming, done + {k}));
            Get(before, k) == Get(acc, k)
            && after == if incoming[k] == Null then before
                        else before[k := UpdatedEntry(acc, k, incoming[k])]
  {
    var r0 := Restrict(incoming, done);
    var r1 := Restrict(incoming, done + {k});
    var before := UpdatedFilters(acc, r0);
    var after := UpdatedFilters(acc, r1);
    WrittenRestrictStep(incoming, done, k);
    var expected := if incoming[k] == Null then before
                    else before[k := UpdatedEntry(acc, k, incoming[k])];
    assert after.Keys == expected.Keys;
    forall j | j in after
      ensures after[j] == expected[j]
    {
      if j != k && j in Written(r0) {
        assert r1[j] == r0[j];
      }
    }
  }
}
