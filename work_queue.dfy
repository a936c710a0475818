/**
  multitest.py: a dictionary from target to a list of candidates, drained
  in batches of at most `num_workers` draws. A draw (`get_candidate`) picks a
  target, pops the last candidate of its list and deletes the target once
  its list is empty; after each batch every target whose result beat the
  threshold is dropped.

  The dictionary is a sequence of entries in insertion order (a Python
  dict keeps that order, and `random.choice(list(keys))` indexes into it).
  The random choices are a parameter `pick`, indexed by draw number; the
  worker pool's `process` is a parameter giving each candidate's value.
 */
module WorkQueue {
  import opened Outcomes

  /** `flatten(lss)`. */
  function Flatten<T>(lss: seq<seq<T>>): seq<T> {
    if lss == [] then [] else lss[0] + Flatten(lss[1..])
  }

  /** `flatten` keeps every item of every sublist and adds none. */
  lemma {:induction false} FlattenMembers<T>(lss: seq<seq<T>>, x: T)
    ensures x in Flatten(lss) <==> exists i :: 0 <= i < |lss| && x in lss[i]
  {
    if lss != [] {
      var rest := lss[1..];
      FlattenMembers(rest, x);
      assert Flatten(lss) == lss[0] + Flatten(rest);
      if x in Flatten(lss) {
        if x !in lss[0] {
          var j :| 0 <= j < |rest| && x in rest[j];
          assert lss[j + 1] == rest[j];
        }
      } else {
        forall i | 0 <= i < |lss|
          ensures x !in lss[i]
        {
          if i > 0 {
            assert lss[i] == rest[i - 1];
          }
        }
      }
    }
  }

  /** Flattening distributes over concatenation of the outer list, so order is kept. */
  lemma {:induction false} FlattenAppend<T>(a: seq<seq<T>>, b: seq<seq<T>>)
    ensures Flatten(a + b) == Flatten(a) + Flatten(b)
  {
    if a == [] {
      assert a + b == b;
    } else {
      assert (a + b)[1..] == a[1..] + b;
      FlattenAppend(a[1..], b);
    }
  }

  /** One dictionary item: a target and its list of candidates. */
  datatype Entry<K, C> = Entry(target: K, cands: seq<C>)

  /** `process_dict.values()`, in order. */
  function Values<K, C>(es: seq<Entry<K, C>>): seq<seq<C>> {
    if es == [] then [] else [es[0].cands] + Values(es[1..])
  }

  /** Every candidate still waiting, key by key. */
  function Pending<K, C>(es: seq<Entry<K, C>>): seq<C> {
    if es == [] then [] else es[0].cands + Pending(es[1..])
  }

  /** The waiting candidates are `flatten(process_dict.values())`. */
  lemma {:induction false} PendingIsFlatten<K, C>(es: seq<Entry<K, C>>)
    ensures Pending(es) == Flatten(Values(es))
  {
    if es != [] {
      assert Values(es)[1..] == Values(es[1..]);
      PendingIsFlatten(es[1..]);
    }
  }

  /** The keys of the dictionary. */
  ghost function Keys<K, C>(es: seq<Entry<K, C>>): set<K> {
    if es == [] then {} else {es[0].target} + Keys(es[1..])
  }

  /** A Python dict has each key once. */
  ghost predicate DistinctKeys<K, C>(es: seq<Entry<K, C>>) {
    es == [] || (es[0].target !in Keys(es[1..]) && DistinctKeys(es[1..]))
  }

  /** The invariant `get_candidate` asserts: no key maps to an empty list. */
  predicate NoEmpty<K, C>(es: seq<Entry<K, C>>) {
    es == [] || (es[0].cands != [] && NoEmpty(es[1..]))
  }

  lemma {:induction false} NoEmptyAt<K, C>(es: seq<Entry<K, C>>, i: nat)
    requires i < |es| && NoEmpty(es)
    ensures es[i].cands != []
  {
    if i > 0 {
      NoEmptyAt(es[1..], i - 1);
    }
  }

  lemma {:induction false} InKeys<K, C>(es: seq<Entry<K, C>>, i: nat)
    requires i < |es|
    ensures es[i].target in Keys(es)
  {
    if i > 0 {
      InKeys(es[1..], i - 1);
    }
  }

  /** `process_dict.get(k)`. */
  function Lookup<K(==), C>(es: seq<Entry<K, C>>, k: K): Option<seq<C>> {
    if es == [] then None
    else if es[0].target == k then Some(es[0].cands)
    else Lookup(es[1..], k)
  }

  /** A key is found exactly when the dictionary has it. */
  lemma {:induction false} LookupKeys<K, C>(es: seq<Entry<K, C>>, k: K)
    ensures Lookup(es, k).Some? <==> k in Keys(es)
  {
    if es != [] {
      LookupKeys(es[1..], k);
    }
  }

  /** With distinct keys, looking up the key of entry `i` finds entry `i`'s list. */
  lemma {:induction false} LookupAt<K, C>(es: seq<Entry<K, C>>, i: nat)
    requires i < |es| && DistinctKeys(es)
    ensures Lookup(es, es[i].target) == Some(es[i].cands)
  {
    if i > 0 {
      InKeys(es[1..], i - 1);
      LookupAt(es[1..], i - 1);
    }
  }

  /** Python's `lst[-1]`. */
  function Last<C>(l: seq<C>): C
    requires l != []
  {
    l[|l| - 1]
  }

  /** The dictionary after `process_dict[target].pop()` and, if that emptied it, `del process_dict[target]`. */
  function Pop<K, C>(es: seq<Entry<K, C>>, i: nat): seq<Entry<K, C>>
    requires i < |es| && es[i].cands != []
    decreases i
  {
    if i == 0 then
      var l := es[0].cands;
      if |l| == 1 then es[1..] else [Entry(es[0].target, l[..|l| - 1])] + es[1..]
    else [es[0]] + Pop(es[1..], i - 1)
  }

  /** Popping removes exactly the last candidate of entry `i` from the pending ones. */
  lemma PendingCons<K, C>(e: Entry<K, C>, rest: seq<Entry<K, C>>)
    ensures Pending([e] + rest) == e.cands + Pending(rest)
  {
    assert ([e] + rest)[1..] == rest;
  }

  lemma MultisetSplit<T>(a: seq<T>, x: T, b: seq<T>)
    ensures multiset(a + [x] + b) == multiset(a + b) + multiset{x}
    ensures |a + [x] + b| == |a + b| + 1
  {
  }

  lemma MultisetPrefix<T>(a: seq<T>, b: seq<T>, c: seq<T>, x: T)
    requires multiset(b) == multiset(c) + multiset{x} && |b| == |c| + 1
    ensures multiset(a + b) == multiset(a + c) + multiset{x} && |a + b| == |a + c| + 1
  {
  }

  lemma {:induction false} PopPending<K, C>(es: seq<Entry<K, C>>, i: nat)
    requires i < |es| && es[i].cands != []
    ensures multiset(Pending(es)) == multiset(Pending(Pop(es, i))) + multiset{Last(es[i].cands)}
    ensures |Pending(Pop(es, i))| == |Pending(es)| - 1
    decreases i
  {
    if i == 0 {
      var l := es[0].cands;
      var init := l[..|l| - 1];
      assert Pending(Pop(es, 0)) == init + Pending(es[1..]) by {
        if |l| > 1 {
          PendingCons(Entry(es[0].target, init), es[1..]);
        }
      }
      assert Pending(es) == init + [Last(l)] + Pending(es[1..]) by {
        assert l == init + [Last(l)];
      }
      MultisetSplit(init, Last(l), Pending(es[1..]));
    } else {
      PopPending(es[1..], i - 1);
      assert Pending(Pop(es, i)) == es[0].cands + Pending(Pop(es[1..], i - 1)) by {
        PendingCons(es[0], Pop(es[1..], i - 1));
      }
      MultisetPrefix(es[0].cands, Pending(es[1..]), Pending(Pop(es[1..], i - 1)), Last(es[i].cands));
    }
  }

  /** Popping never adds a key. */
  lemma {:induction false} PopKeys<K, C>(es: seq<Entry<K, C>>, i: nat)
    requires i < |es| && es[i].cands != []
    ensures Keys(Pop(es, i)) <= Keys(es)
    decreases i
  {
    var p := Pop(es, i);
    if i == 0 {
      if |es[0].cands| > 1 {
        assert p[1..] == es[1..];
      }
    } else {
      PopKeys(es[1..], i - 1);
      assert p[1..] == Pop(es[1..], i - 1);
    }
  }

  /** Popping keeps every list non-empty and every key distinct. */
  lemma {:induction false} PopKeepsInvariant<K, C>(es: seq<Entry<K, C>>, i: nat)
    requires i < |es| && es[i].cands != [] && NoEmpty(es) && DistinctKeys(es)
    ensures NoEmpty(Pop(es, i)) && DistinctKeys(Pop(es, i))
    decreases i
  {
    var p := Pop(es, i);
    if i == 0 {
      if |es[0].cands| > 1 {
        assert p[1..] == es[1..];
      }
    } else {
      PopKeepsInvariant(es[1..], i - 1);
      PopKeys(es[1..], i - 1);
      assert p[1..] == Pop(es[1..], i - 1);
    }
  }

  /**
    Popping from entry `i` shortens that key's list by its last candidate,
    deleting the key when the list empties, and leaves every other key's
    list as it was.
   */
  lemma {:induction false} PopLookup<K, C>(es: seq<Entry<K, C>>, i: nat, k: K)
    requires i < |es| && es[i].cands != [] && DistinctKeys(es)
    ensures var l := es[i].cands;
            k == es[i].target ==>
              Lookup(Pop(es, i), k) == if |l| == 1 then None else Some(l[..|l| - 1])
    ensures k != es[i].target ==> Lookup(Pop(es, i), k) == Lookup(es, k)
    decreases i
  {
    var p := Pop(es, i);
    if i == 0 {
      if |es[0].cands| == 1 {
        LookupKeys(es[1..], k);
      } else {
        assert p[1..] == es[1..];
      }
    } else {
      PopLookup(es[1..], i - 1, k);
      assert p[0] == es[0] && p[1..] == Pop(es[1..], i - 1);
      if k == es[i].target {
        InKeys(es[1..], i - 1);
      }
    }
  }

  /** `get_candidate(process_dict)` with `pick` in place of `random.choice`: the result and the new dictionary. */
  function Draw<K, C>(es: seq<Entry<K, C>>, pick: nat): (Outcome<Option<(K, C)>>, seq<Entry<K, C>>) {
    if Pending(es) == [] then (Ok(None), es)
    else if !NoEmpty(es) then (Raised(AssertionError), es)
    else
      var i := pick % |es|;
      NoEmptyAt(es, i);
      (Ok(Some((es[i].target, Last(es[i].cands)))), Pop(es, i))
  }

  /**
    A draw returns None exactly when no candidate is left, raises exactly
    when candidates are left but some list is empty, and changes the
    dictionary in neither case.
   */
  lemma DrawFailsExactly<K, C>(es: seq<Entry<K, C>>, pick: nat)
    ensures Draw(es, pick).0 == Ok(None) <==> Pending(es) == []
    ensures Draw(es, pick).0.Raised? <==> Pending(es) != [] && !NoEmpty(es)
    ensures Draw(es, pick).0.Raised? ==> Draw(es, pick).0.exn == AssertionError
    ensures Draw(es, pick).0 == Ok(None) || Draw(es, pick).0.Raised? ==> Draw(es, pick).1 == es
  {
  }

  /**
    A draw from a dictionary with candidates and no empty list returns the
    last candidate of some key's list, takes exactly that one candidate out
    of the pending ones, and keeps the invariant.
   */
  lemma DrawTakesOne<K, C>(es: seq<Entry<K, C>>, pick: nat)
    requires Pending(es) != [] && NoEmpty(es) && DistinctKeys(es)
    ensures Draw(es, pick).0.Ok? && Draw(es, pick).0.value.Some?
    ensures var k, c := Draw(es, pick).0.value.value.0, Draw(es, pick).0.value.value.1;
            var es' := Draw(es, pick).1;
            && Lookup(es, k).Some? && Lookup(es, k).value != [] && c == Last(Lookup(es, k).value)
            && multiset(Pending(es)) == multiset(Pending(es')) + multiset{c}
            && |Pending(es')| == |Pending(es)| - 1
            && NoEmpty(es') && DistinctKeys(es')
  {
    var i := pick % |es|;
    NoEmptyAt(es, i);
    assert Draw(es, pick) == (Ok(Some((es[i].target, Last(es[i].cands)))), Pop(es, i));
    PopPending(es, i);
    PopKeepsInvariant(es, i);
    LookupAt(es, i);
  }

  /** A drawn key that is emptied is deleted, and every other key's list is untouched. */
  lemma DrawLookup<K, C>(es: seq<Entry<K, C>>, pick: nat, k': K)
    requires Pending(es) != [] && NoEmpty(es) && DistinctKeys(es)
    ensures Draw(es, pick).0.Ok? && Draw(es, pick).0.value.Some?
    ensures var k := Draw(es, pick).0.value.value.0;
            var es' := Draw(es, pick).1;
            && Lookup(es, k).Some? && |Lookup(es, k).value| >= 1
            && (k' != k ==> Lookup(es', k') == Lookup(es, k'))
            && (k' == k ==> var l := Lookup(es, k).value;
                            Lookup(es', k) == if |l| == 1 then None else Some(l[..|l| - 1]))
  {
    var i := pick % |es|;
    NoEmptyAt(es, i);
    assert Draw(es, pick) == (Ok(Some((es[i].target, Last(es[i].cands)))), Pop(es, i));
    LookupAt(es, i);
    PopLookup(es, i, k');
  }

  /** `process_dict.pop(k, None)`: the entry for `k` goes, an absent key is no error. */
  function Remove<K(==), C>(es: seq<Entry<K, C>>, k: K): seq<Entry<K, C>> {
    if es == [] then []
    else if es[0].target == k then es[1..]
    else [es[0]] + Remove(es[1..], k)
  }

  /** Removing `k` leaves `k` absent and every other key's list unchanged. */
  lemma {:induction false} RemoveLookup<K, C>(es: seq<Entry<K, C>>, k: K, k': K)
    requires DistinctKeys(es)
    ensures Lookup(Remove(es, k), k') == if k' == k then None else Lookup(es, k')
  {
    if es != [] {
      if es[0].target == k {
        LookupKeys(es[1..], k);
      } else {
        RemoveLookup(es[1..], k, k');
        assert ([es[0]] + Remove(es[1..], k))[1..] == Remove(es[1..], k);
      }
    }
  }

  /** Removal keeps the invariant, only takes candidates away, and ignores an absent key. */
  lemma {:induction false} RemoveKeepsInvariant<K, C>(es: seq<Entry<K, C>>, k: K)
    requires DistinctKeys(es)
    ensures Keys(Remove(es, k)) <= Keys(es)
    ensures DistinctKeys(Remove(es, k))
    ensures NoEmpty(es) ==> NoEmpty(Remove(es, k))
    ensures multiset(Pending(Remove(es, k))) <= multiset(Pending(es))
    ensures k !in Keys(es) ==> Remove(es, k) == es
  {
    if es != [] && es[0].target != k {
      RemoveKeepsInvariant(es[1..], k);
      var r := Remove(es, k);
      assert r[0] == es[0] && r[1..] == Remove(es[1..], k);
    }
  }

  /**
    The invariant the batch loop keeps: once a draw would find candidates,
    no list is empty, so `get_candidate`'s assertion holds.
   */
  ghost predicate Drawable<K, C>(es: seq<Entry<K, C>>) {
    DistinctKeys(es) && (Pending(es) == [] || NoEmpty(es))
  }

  /** What one batch of draws gives: the drawn pairs, the dictionary after, and `finished`. */
  datatype Batch<K, C> = Batch(args: seq<(K, C)>, left: seq<Entry<K, C>>, finished: bool)

  /** The candidates of a list of drawn pairs. */
  function Cands<K, C>(args: seq<(K, C)>): multiset<C> {
    if args == [] then multiset{} else multiset{args[0].1} + Cands(args[1..])
  }

  /** What one draw does to a dictionary that keeps the invariant. */
  lemma DrawStep<K, C>(es: seq<Entry<K, C>>, pick: nat)
    requires Drawable(es)
    ensures var (r, es') := Draw(es, pick);
            && Drawable(es')
            && (Pending(es) == [] ==> r == Ok(None) && es' == es)
            && (Pending(es) != [] ==>
                  && r.Ok? && r.value.Some?
                  && multiset(Pending(es)) == multiset(Pending(es')) + multiset{r.value.value.1}
                  && |Pending(es')| == |Pending(es)| - 1)
  {
    if Pending(es) != [] {
      DrawTakesOne(es, pick);
    }
  }

  /** Adds one draw's result to the rest of a batch: a drawn pair goes first, a None ends the loop. */
  function Record<K, C>(r: Outcome<Option<(K, C)>>, b: Batch<K, C>): Batch<K, C> {
    if r.Ok? && r.value.Some? then Batch([r.value.value] + b.args, b.left, b.finished)
    else Batch(b.args, b.left, true)
  }

  /** `for _ in range(n)` of the batch loop: draw number `d` uses `pick(d)`. */
  function DrawBatch<K, C>(es: seq<Entry<K, C>>, n: nat, pick: nat -> nat, d: nat): Batch<K, C>
    requires Drawable(es)
    decreases n
  {
    if n == 0 then Batch([], es, false)
    else
      var step := Draw(es, pick(d));
      DrawStep(es, pick(d));
      // On a dictionary that keeps the invariant a draw never raises (DrawStep).
      Record(step.0, DrawBatch(step.1, n - 1, pick, d + 1))
  }

  /**
    A batch of `n` draws takes min(n, pending) candidates and sets
    `finished` exactly when fewer than `n` were pending.
   */
  lemma {:induction false} DrawBatchCounts<K, C>(es: seq<Entry<K, C>>, n: nat, pick: nat -> nat, d: nat)
    requires Drawable(es)
    ensures var b := DrawBatch(es, n, pick, d);
            && |b.args| == (if n < |Pending(es)| then n else |Pending(es)|)
            && (b.finished <==> |Pending(es)| < n)
            && |Pending(b.left)| == |Pending(es)| - |b.args|
    decreases n
  {
    if n > 0 {
      var step := Draw(es, pick(d));
      DrawBatchUnfold(es, n, pick, d);
      assert Pending(es) == [] ==> step.0 == Ok(None) && step.1 == es by {
        DrawStep(es, pick(d));
      }
      assert Pending(es) != [] ==> step.0.Ok? && step.0.value.Some? && |Pending(step.1)| == |Pending(es)| - 1 by {
        DrawStep(es, pick(d));
      }
      DrawBatchCounts(step.1, n - 1, pick, d + 1);
    }
  }

  /** The invariant holds after a batch. */
  lemma {:induction false} DrawBatchDrawable<K, C>(es: seq<Entry<K, C>>, n: nat, pick: nat -> nat, d: nat)
    requires Drawable(es)
    ensures Drawable(DrawBatch(es, n, pick, d).left)
    decreases n
  {
    if n > 0 {
      DrawStep(es, pick(d));
      DrawBatchDrawable(Draw(es, pick(d)).1, n - 1, pick, d + 1);
    }
  }

  lemma MultisetShift<T>(p: multiset<T>, p': multiset<T>, q: multiset<T>, cs: multiset<T>, x: T)
    requires p == p' + multiset{x} && p' == q + cs
    ensures p == q + (multiset{x} + cs)
  {
  }

  lemma CandsCons<K, C>(a: (K, C), args: seq<(K, C)>)
    ensures Cands([a] + args) == multiset{a.1} + Cands(args)
  {
    assert ([a] + args)[1..] == args;
  }

  /** The candidates `b` drew and the ones it left are together the ones `es` held. */
  ghost predicate BatchKeeps<K, C>(es: seq<Entry<K, C>>, b: Batch<K, C>) {
    multiset(Pending(es)) == multiset(Pending(b.left)) + Cands(b.args)
  }

  /** The candidates a batch draws and the ones it leaves are together the ones there were. */
  lemma {:induction false} DrawBatchKeeps<K, C>(es: seq<Entry<K, C>>, n: nat, pick: nat -> nat, d: nat)
    requires Drawable(es)
    ensures BatchKeeps(es, DrawBatch(es, n, pick, d))
    decreases n
  {
    if n > 0 {
      DrawStepKeeps(es, pick(d));
      DrawBatchKeeps(Draw(es, pick(d)).1, n - 1, pick, d + 1);
      RecordStepKeeps(es, n, pick, d);
    } else {
      assert Cands<K, C>([]) == multiset{};
    }
  }

  /** One draw in front of a batch that keeps the candidates keeps them too. */
  lemma RecordStepKeeps<K, C>(es: seq<Entry<K, C>>, n: nat, pick: nat -> nat, d: nat)
    requires Drawable(es) && n > 0 && Drawable(Draw(es, pick(d)).1)
    requires BatchKeeps(Draw(es, pick(d)).1, DrawBatch(Draw(es, pick(d)).1, n - 1, pick, d + 1))
    ensures BatchKeeps(es, DrawBatch(es, n, pick, d))
  {
    DrawStepKeeps(es, pick(d));
    var step := Draw(es, pick(d));
    RecordKeeps(es, step.0, step.1, DrawBatch(step.1, n - 1, pick, d + 1));
  }

  lemma DrawStepKeeps<K, C>(es: seq<Entry<K, C>>, pick: nat)
    requires Drawable(es)
    ensures Drawable(Draw(es, pick).1) && StepKeeps(es, Draw(es, pick).0, Draw(es, pick).1)
  {
    DrawStep(es, pick);
  }

  /** A batch of `n` draws is one draw recorded in front of a batch of `n - 1`. */
  lemma DrawBatchUnfold<K, C>(es: seq<Entry<K, C>>, n: nat, pick: nat -> nat, d: nat)
    requires Drawable(es) && n > 0
    ensures var step := Draw(es, pick(d));
            && Drawable(step.1) && StepKeeps(es, step.0, step.1)
            && DrawBatch(es, n, pick, d) == Record(step.0, DrawBatch(step.1, n - 1, pick, d + 1))
  {
    DrawStep(es, pick(d));
  }

  /** The draws made so far followed by the rest of the batch. */
  function Join<K, C>(args: seq<(K, C)>, finished: bool, rest: Batch<K, C>): Batch<K, C> {
    Batch(args + rest.args, rest.left, finished || rest.finished)
  }

  /** Recording one more draw is appending it to the draws made so far. */
  lemma JoinRecord<K, C>(args: seq<(K, C)>, finished: bool, r: Outcome<Option<(K, C)>>, rest: Batch<K, C>)
    ensures r.Ok? && r.value.Some? ==> Join(args, finished, Record(r, rest)) == Join(args + [r.value.value], finished, rest)
    ensures !(r.Ok? && r.value.Some?) ==> Join(args, finished, Record(r, rest)) == Join(args, true, rest)
  {
    if r.Ok? && r.value.Some? {
      assert args + ([r.value.value] + rest.args) == (args + [r.value.value]) + rest.args;
    }
  }

  /** One turn of the batch loop keeps the batch still to come in step with the draws made. */
  lemma BatchLoopStep<K, C>(es0: seq<Entry<K, C>>, n: nat, pick: nat -> nat, d: nat, k: nat,
                            args: seq<(K, C)>, finished: bool, es: seq<Entry<K, C>>,
                            r: Outcome<Option<(K, C)>>, es': seq<Entry<K, C>>)
    requires k < n && Drawable(es0) && Drawable(es)
    requires DrawBatch(es0, n, pick, d) == Join(args, finished, DrawBatch(es, n - k, pick, d + k))
    requires r == Draw(es, pick(d + k)).0 && es' == Draw(es, pick(d + k)).1
    ensures Drawable(es')
    ensures r.Ok? && r.value.Some? ==>
              DrawBatch(es0, n, pick, d) == Join(args + [r.value.value], finished, DrawBatch(es', n - (k + 1), pick, d + (k + 1)))
    ensures !(r.Ok? && r.value.Some?) ==>
              DrawBatch(es0, n, pick, d) == Join(args, true, DrawBatch(es', n - (k + 1), pick, d + (k + 1)))
  {
    DrawBatchUnfold(es, n - k, pick, d + k);
    JoinRecord(args, finished, r, DrawBatch(es', n - (k + 1), pick, d + (k + 1)));
  }

  /** One draw either moves one candidate out of the dictionary into its result or changes nothing. */
  ghost predicate StepKeeps<K, C>(es: seq<Entry<K, C>>, r: Outcome<Option<(K, C)>>, es': seq<Entry<K, C>>) {
    if r.Ok? && r.value.Some? then multiset(Pending(es)) == multiset(Pending(es')) + multiset{r.value.value.1}
    else es' == es
  }

  lemma RecordKeeps<K, C>(es: seq<Entry<K, C>>, r: Outcome<Option<(K, C)>>, es': seq<Entry<K, C>>, b: Batch<K, C>)
    requires StepKeeps(es, r, es') && BatchKeeps(es', b)
    ensures BatchKeeps(es, Record(r, b))
  {
    if r.Ok? && r.value.Some? {
      var a := r.value.value;
      CandsCons(a, b.args);
      MultisetShift(multiset(Pending(es)), multiset(Pending(es')), multiset(Pending(b.left)), Cands(b.args), a.1);
    }
  }

  /** `for trg, value in results: if value > thresh: to_process.pop(trg, None)`. */
  function DropSucceeded<K(==), C>(es: seq<Entry<K, C>>, results: seq<(K, real)>, thresh: real): seq<Entry<K, C>>
    decreases |results|
  {
    if results == [] then es
    else
      var es' := if results[0].1 > thresh then Remove(es, results[0].0) else es;
      DropSucceeded(es', results[1..], thresh)
  }

  /** The removals keep the invariant and add no candidate. */
  lemma {:induction false} DropSucceededKeeps<K, C>(es: seq<Entry<K, C>>, results: seq<(K, real)>, thresh: real)
    requires Drawable(es)
    ensures Drawable(DropSucceeded(es, results, thresh))
    ensures multiset(Pending(DropSucceeded(es, results, thresh))) <= multiset(Pending(es))
    decreases |results|
  {
    if results != [] {
      var es' := if results[0].1 > thresh then Remove(es, results[0].0) else es;
      if results[0].1 > thresh {
        RemoveKeepsInvariant(es, results[0].0);
        PendingEmptyStays(es, es');
      }
      DropSucceededKeeps(es', results[1..], thresh);
    }
  }

  /** A key absent before the removals stays absent. */
  lemma {:induction false} DropAbsentStaysAbsent<K, C>(es: seq<Entry<K, C>>, results: seq<(K, real)>, thresh: real, k: K)
    requires DistinctKeys(es) && Lookup(es, k).None?
    ensures Lookup(DropSucceeded(es, results, thresh), k).None?
    decreases |results|
  {
    if results != [] {
      var es' := if results[0].1 > thresh then Remove(es, results[0].0) else es;
      if results[0].1 > thresh {
        RemoveLookup(es, results[0].0, k);
        RemoveKeepsInvariant(es, results[0].0);
      }
      DropAbsentStaysAbsent(es', results[1..], thresh, k);
    }
  }

  /** After the removals, a target with some result above the threshold is gone. */
  lemma {:induction false} DropSucceededRemoves<K, C>(es: seq<Entry<K, C>>, results: seq<(K, real)>, thresh: real, j: nat)
    requires DistinctKeys(es) && j < |results| && results[j].1 > thresh
    ensures Lookup(DropSucceeded(es, results, thresh), results[j].0).None?
    decreases |results|
  {
    var k := results[j].0;
    var es' := if results[0].1 > thresh then Remove(es, results[0].0) else es;
    if results[0].1 > thresh {
      RemoveKeepsInvariant(es, results[0].0);
    }
    if j == 0 {
      RemoveLookup(es, k, k);
      DropAbsentStaysAbsent(es', results[1..], thresh, k);
    } else {
      assert results[1..][j - 1] == results[j];
      DropSucceededRemoves(es', results[1..], thresh, j - 1);
    }
  }

  /** A target whose results all stayed at or below the threshold keeps its list. */
  lemma {:induction false} DropSucceededKeepsOthers<K, C>(es: seq<Entry<K, C>>, results: seq<(K, real)>, thresh: real, k: K)
    requires DistinctKeys(es)
    requires forall j :: 0 <= j < |results| && results[j].0 == k ==> results[j].1 <= thresh
    ensures Lookup(DropSucceeded(es, results, thresh), k) == Lookup(es, k)
    decreases |results|
  {
    if results != [] {
      var es' := if results[0].1 > thresh then Remove(es, results[0].0) else es;
      if results[0].1 > thresh {
        RemoveLookup(es, results[0].0, k);
        RemoveKeepsInvariant(es, results[0].0);
      }
      forall j | 0 <= j < |results[1..]| && results[1..][j].0 == k
        ensures results[1..][j].1 <= thresh
      {
        assert results[1..][j] == results[j + 1];
      }
      DropSucceededKeepsOthers(es', results[1..], thresh, k);
    }
  }

  /** `pool.map(process, args)`: each drawn pair becomes (target, value). */
  function Results<K, C>(args: seq<(K, C)>, process: (K, C) -> real): (r: seq<(K, real)>)
    ensures |r| == |args|
    ensures forall i :: 0 <= i < |args| ==> r[i].0 == args[i].0
  {
    seq(|args|, i requires 0 <= i < |args| => (args[i].0, process(args[i].0, args[i].1)))
  }

  /** `list(range(n))`. */
  function Range(n: nat): (r: seq<int>)
    ensures |r| == n && forall i :: 0 <= i < n ==> r[i] == i
  {
    seq(n, i => i)
  }

  /** `process_dict[k] = v`: replace the list of a present key in place, or append a new key. */
  function Assign<K(==), C>(es: seq<Entry<K, C>>, k: K, v: seq<C>): seq<Entry<K, C>> {
    if es == [] then [Entry(k, v)]
    else if es[0].target == k then [Entry(k, v)] + es[1..]
    else [es[0]] + Assign(es[1..], k, v)
  }

  /**
    After an assignment `k` maps to `v` and every other key is unchanged;
    the keys stay distinct, and lists stay non-empty (or all empty) when
    `v` is.
   */
  lemma {:induction false} AssignLookup<K, C>(es: seq<Entry<K, C>>, k: K, v: seq<C>, k': K)
    requires DistinctKeys(es)
    ensures Lookup(Assign(es, k, v), k') == if k' == k then Some(v) else Lookup(es, k')
    ensures Keys(Assign(es, k, v)) == Keys(es) + {k}
    ensures DistinctKeys(Assign(es, k, v))
    ensures NoEmpty(es) && v != [] ==> NoEmpty(Assign(es, k, v))
    ensures Pending(es) == [] && v == [] ==> Pending(Assign(es, k, v)) == []
  {
    if es != [] {
      var a := Assign(es, k, v);
      if es[0].target == k {
        assert a[1..] == es[1..];
      } else {
        AssignLookup(es[1..], k, v, k');
        assert a[0] == es[0] && a[1..] == Assign(es[1..], k, v);
      }
    }
  }

  lemma {:induction false} CandsAppend<K, C>(a: seq<(K, C)>, b: seq<(K, C)>)
    ensures Cands(a + b) == Cands(a) + Cands(b)
  {
    if a == [] {
      assert a + b == b;
    } else {
      assert (a + b)[1..] == a[1..] + b;
      CandsAppend(a[1..], b);
    }
  }

  /** Taking candidates away from an empty dictionary leaves it empty. */
  lemma PendingEmptyStays<K, C>(a: seq<Entry<K, C>>, b: seq<Entry<K, C>>)
    requires multiset(Pending(b)) <= multiset(Pending(a))
    ensures Pending(a) == [] ==> Pending(b) == []
    ensures |Pending(b)| <= |Pending(a)|
  {
    var ma, mb := multiset(Pending(a)), multiset(Pending(b));
    assert |ma - mb| + |mb| == |ma| by {
      assert (ma - mb) + mb == ma;
    }
  }

  lemma MultisetBound<T>(ran: multiset<T>, drawn: multiset<T>, after: multiset<T>, left: multiset<T>,
                         before: multiset<T>, start: multiset<T>)
    requires before == left + drawn && after <= left && ran + before <= start
    ensures (ran + drawn) + after <= start
  {
  }

  /** The settings of multitest.py's main block. */
  const Targets: seq<string> := ["a", "b", "c", "d", "e"]
  const Attempts: nat := 5
  const Thresh: real := 0.75
  const NumWorkers: nat := 4

  /** The coordinator of multitest.py's main block, holding `to_process`. */
  class Coordinator {
    var toProcess: seq<Entry<string, int>>

    /** `to_process = {}` then `to_process[trg] = list(range(attempts))` for each target. */
    constructor(targets: seq<string>, attempts: nat)
      ensures Drawable(toProcess)
      ensures forall k :: Lookup(toProcess, k) == if k in targets then Some(Range(attempts)) else None
    {
      toProcess := [];
      new;
      var j := 0;
      while j < |targets|
        invariant 0 <= j <= |targets|
        invariant DistinctKeys(toProcess)
        invariant attempts > 0 ==> NoEmpty(toProcess)
        invariant attempts == 0 ==> Pending(toProcess) == []
        invariant forall k :: Lookup(toProcess, k) == if k in targets[..j] then Some(Range(attempts)) else None
      {
        forall k
          ensures Lookup(Assign(toProcess, targets[j], Range(attempts)), k)
                  == if k in targets[..j + 1] then Some(Range(attempts)) else None
        {
          AssignLookup(toProcess, targets[j], Range(attempts), k);
          assert targets[..j + 1] == targets[..j] + [targets[j]];
        }
        AssignLookup(toProcess, targets[j], Range(attempts), targets[j]);
        toProcess := Assign(toProcess, targets[j], Range(attempts));
        j := j + 1;
      }
      assert targets[..j] == targets;
    }

    /** `get_candidate(to_process)` with `pick` in place of the random choice. */
    method GetCandidate(pick: nat) returns (r: Outcome<Option<(string, int)>>)
      modifies this
      ensures r == Draw(old(toProcess), pick).0 && toProcess == Draw(old(toProcess), pick).1
    {
      if |Pending(toProcess)| == 0 {
        return Ok(None);
      }
      if !NoEmpty(toProcess) {
        return Raised(AssertionError);
      }
      var i := pick % |toProcess|;
      NoEmptyAt(toProcess, i);
      var l := toProcess[i].cands;
      var candidate := l[|l| - 1];
      r := Ok(Some((toProcess[i].target, candidate)));
      toProcess := Pop(toProcess, i);
    }

    /** `for _ in range(n)` of the batch loop. */
    method DrawN(n: nat, pick: nat -> nat, d: nat) returns (b: Batch<string, int>)
      requires Drawable(toProcess)
      modifies this
      ensures b == DrawBatch(old(toProcess), n, pick, d) && toProcess == b.left
    {
      var args: seq<(string, int)> := [];
      var finished := false;
      var k := 0;
      ghost var es0 := toProcess;
      ghost var rest := DrawBatch(toProcess, n, pick, d);
      while k < n
        invariant 0 <= k <= n && Drawable(toProcess)
        invariant rest == DrawBatch(toProcess, n - k, pick, d + k)
        invariant DrawBatch(es0, n, pick, d) == Join(args, finished, rest)
      {
        ghost var before := toProcess;
        var arg := GetCandidate(pick(d + k));
        BatchLoopStep(es0, n, pick, d, k, args, finished, before, arg, toProcess);
        rest := DrawBatch(toProcess, n - (k + 1), pick, d + (k + 1));
        if arg.Ok? && arg.value.Some? {
          args := args + [arg.value.value];
        } else {
          finished := true;
        }
        k := k + 1;
      }
      b := Batch(args, toProcess, finished);
    }

    /** The results loop after a batch. */
    method DropAll(results: seq<(string, real)>, thresh: real)
      modifies this
      ensures toProcess == DropSucceeded(old(toProcess), results, thresh)
    {
      var j := 0;
      ghost var es0 := toProcess;
      while j < |results|
        invariant 0 <= j <= |results|
        invariant DropSucceeded(toProcess, results[j..], thresh) == DropSucceeded(es0, results, thresh)
      {
        assert results[j..][1..] == results[j + 1..];
        if results[j].1 > thresh {
          toProcess := Remove(toProcess, results[j].0);
        }
        j := j + 1;
      }
      assert results[j..] == [];
    }

    /**
      The batch loop: draw up to `numWorkers` candidates per batch, run them,
      and drop every target whose value beat `thresh`, until a draw finds
      the dictionary empty. Returns every pair that was run, in order; no
      candidate runs twice or comes from outside the dictionary.
     */
    method Run(numWorkers: nat, thresh: real, pick: nat -> nat, process: (string, int) -> real)
      returns (ran: seq<(string, int)>)
      requires Drawable(toProcess) && numWorkers >= 1
      modifies this
      ensures Pending(toProcess) == [] && Drawable(toProcess)
      ensures Cands(ran) <= multiset(Pending(old(toProcess)))
    {
      ran := [];
      var d := 0;
      var finished := false;
      ghost var start := multiset(Pending(toProcess));
      while !finished
        invariant Drawable(toProcess)
        invariant Cands(ran) + multiset(Pending(toProcess)) <= start
        invariant finished ==> Pending(toProcess) == []
        decreases |Pending(toProcess)| + (if finished then 0 else 1)
      {
        ghost var before := toProcess;
        var b := DrawN(numWorkers, pick, d);
        DrawBatchCounts(before, numWorkers, pick, d);
        DrawBatchKeeps(before, numWorkers, pick, d);
        DrawBatchDrawable(before, numWorkers, pick, d);
        finished := b.finished;
        d := d + numWorkers;
        var results := Results(b.args, process);
        DropAll(results, thresh);
        DropSucceededKeeps(b.left, results, thresh);
        PendingEmptyStays(b.left, toProcess);
        CandsAppend(ran, b.args);
        MultisetBound(Cands(ran), Cands(b.args), multiset(Pending(toProcess)), multiset(Pending(b.left)),
                      multiset(Pending(before)), start);
        ran := ran + b.args;
      }
    }
  }

  /** The main block's dictionary maps each of the five targets to [0, 1, 2, 3, 4] and nothing else. */
  lemma ScriptStart(es: seq<Entry<string, int>>)
    requires forall k :: Lookup(es, k) == if k in Targets then Some(Range(Attempts)) else None
    ensures Lookup(es, "c") == Some([0, 1, 2, 3, 4])
    ensures Lookup(es, "f").None?
  {
    assert Range(Attempts) == [0, 1, 2, 3, 4];
  }
}
