// The pool set: one checkout from several pools at once, all of them or none.
module PoolSets {
  import opened Types

  /** Pool names, pools and errors are only compared. */
  type Name = nat
  type PoolRef = nat
  type Error = nat

  /** The part of a checkout's parameters that matters here: which container it is. */
  datatype Params = Params(id: Id)

  /** What a checkout from one pool gives. */
  datatype Answer = Item(p: Params) | NoItem(err: Error)

  /** What one pool's checkout goroutine sends. */
  datatype Entry = Got(name: Name, p: Params) | Failed(name: Name, err: Error)

  function EntryOf(name: Name, a: Answer): Entry {
    match a
    case Item(p) => Got(name, p)
    case NoItem(err) => Failed(name, err)
  }

  datatype SetResult = Success(set_: map<Name, Params>) | Failure(err: Error)

  /** A call of Return on one pool. */
  datatype Handback = Handback(name: Name, pool: PoolRef, p: Params)

  /** The named pools that exist, or all pools if none is named. */
  function Selected(pools: map<Name, PoolRef>, names: seq<Name>): (sel: map<Name, PoolRef>)
    ensures names == [] ==> sel == pools
    ensures forall n :: n in names && n in pools ==> n in sel
    ensures forall n :: n in sel ==> n in pools && sel[n] == pools[n] && (names == [] || n in names)
  {
    map n | n in pools && (names == [] || n in names) :: pools[n]
  }

  /** Exactly one entry for each of these pools, in whatever order they answer. */
  ghost predicate Answers(names: set<Name>, arrivals: seq<Entry>) {
    && (forall n :: n in names <==> exists k :: 0 <= k < |arrivals| && arrivals[k].name == n)
    && (forall j, k :: 0 <= j < k < |arrivals| ==> arrivals[j].name != arrivals[k].name)
  }

  /** Each entry is what its pool gave. */
  ghost predicate Honest(checkout: Name -> Answer, arrivals: seq<Entry>) {
    forall k :: 0 <= k < |arrivals| ==> arrivals[k] == EntryOf(arrivals[k].name, checkout(arrivals[k].name))
  }

  predicate AllGot(arrivals: seq<Entry>) {
    forall k :: 0 <= k < |arrivals| ==> arrivals[k].Got?
  }

  /** The set holds exactly the successful entries. */
  ghost predicate Holds(set_: map<Name, Params>, arrivals: seq<Entry>) {
    && (forall k :: 0 <= k < |arrivals| && arrivals[k].Got? ==>
          arrivals[k].name in set_ && set_[arrivals[k].name] == arrivals[k].p)
    && (forall n :: n in set_ ==> exists k :: 0 <= k < |arrivals| && arrivals[k] == Got(n, set_[n]))
  }

  /** One Handback per name, to that name's own pool. */
  function Handbacks(pools: map<Name, PoolRef>, set_: map<Name, Params>): multiset<Handback> {
    multiset(set n | n in set_ && n in pools :: Handback(n, pools[n], set_[n]))
  }

  /** All or nothing: an item from every pool asked for, or an error and every item obtained handed back. */
  ghost predicate AllOrNothing(pools: map<Name, PoolRef>, names: set<Name>, arrivals: seq<Entry>,
                               r: SetResult, handed: multiset<Handback>) {
    && (r.Success? <==> AllGot(arrivals))
    && (r.Success? ==> r.set_.Keys == names && Holds(r.set_, arrivals) && handed == multiset{})
    && (r.Failure? ==> FirstError(arrivals, r.err) && exists got :: Holds(got, arrivals) && handed == Handbacks(pools, got))
  }

  ghost predicate FirstError(arrivals: seq<Entry>, err: Error) {
    exists k :: 0 <= k < |arrivals| && AllGot(arrivals[..k]) && arrivals[k].Failed? && arrivals[k].err == err
  }

  class PoolSet {
    const pools: map<Name, PoolRef>

    constructor (pools: map<Name, PoolRef>)
      ensures this.pools == pools
    {
      this.pools := pools;
    }

    method PoolsForCheckout(names: seq<Name>) returns (sel: map<Name, PoolRef>)
      ensures sel == Selected(pools, names)
      ensures names == [] ==> sel == pools
      ensures names != [] ==> forall n :: n in sel <==> n in names && n in pools
      ensures forall n :: n in sel ==> sel[n] == pools[n]
    {
      if |names| == 0 {
        return pools;
      }
      sel := map[];
      for k := 0 to |names|
        invariant forall n :: n in sel <==> n in pools && n in names[..k]
        invariant forall n :: n in sel ==> sel[n] == pools[n]
      {
        if names[k] in pools {
          sel := sel[names[k] := pools[names[k]]];
        }
        assert names[..k + 1] == names[..k] + [names[k]];
      }
      assert names[..|names|] == names;
    }

    /** At most one handback: of this item, to the pool of that name if the set has one. */
    method Return(name: Name, p: Params) returns (handed: multiset<Handback>)
      ensures |handed| <= 1
      ensures forall h :: h in handed <==> h.name in pools && h.pool == pools[h.name] && h.name == name && h.p == p
    {
      if name in pools {
        return multiset{Handback(name, pools[name], p)};
      }
      handed := multiset{};
    }

    /** Each entry goes back to its own pool exactly once. */
    method ReturnAll(set_: map<Name, Params>) returns (handed: multiset<Handback>)
      ensures handed == Handbacks(pools, set_)
    {
      hide Handbacks;
      handed := multiset{};
      var rest := set_;
      while rest != map[]
        invariant handed + Handbacks(pools, rest) == Handbacks(pools, set_)
        decreases |rest|
      {
        var name :| name in rest;
        var one := Return(name, rest[name]);
        OneReturned(pools, rest, name, one);
        handed := handed + one;
        rest := rest - {name};
      }
      NoHandbacks(pools);
    }

    /** One goroutine for each selected pool, each sending one entry; the collector receives them in any order
        until the wait group is at zero. */
    method CheckoutWith(names: seq<Name>, checkout: Name -> Answer)
      returns (r: SetResult, handed: multiset<Handback>, arrivals: seq<Entry>)
      ensures Answers(Selected(pools, names).Keys, arrivals) && Honest(checkout, arrivals)
      ensures AllOrNothing(pools, Selected(pools, names).Keys, arrivals, r, handed)
      ensures r.Success? <==> forall n :: n in pools && (names == [] || n in names) ==> checkout(n).Item?
      ensures r.Success? ==> handed == multiset{} && forall n ::
        if n in pools && (names == [] || n in names) then n in r.set_ && checkout(n) == Item(r.set_[n]) else n !in r.set_
      ensures r.Failure? ==> exists n :: n in pools && (names == [] || n in names) && checkout(n) == NoItem(r.err)
      ensures r.Failure? ==> forall h ::
        handed[h] == if h.name in pools && (names == [] || h.name in names) && h.pool == pools[h.name] && checkout(h.name) == Item(h.p) then 1 else 0
    {
      hide Collected, Split, AllGot, FirstError, Holds, Handbacks, Answers, Honest, Selected, AllOrNothing;
      var sel := PoolsForCheckout(names);
      var sending := Launch(sel);
      var got: map<Name, Params> := map[];
      var errors: seq<Error> := [];
      arrivals := [];
      ghost var heard: set<Name> := {};
      NothingCollected(checkout);
      NoneHeard(sending);
      while sending != {}
        invariant Split(sel.Keys, heard, sending)
        invariant Collected(heard, checkout, arrivals, got, errors)
        decreases |sending|
      {
        var name :| name in sending;
        var entry := EntryOf(name, checkout(name));
        OneHeard(sel.Keys, heard, sending, name);
        CollectOne(heard, checkout, arrivals, got, errors, name);
        arrivals, sending, heard := arrivals + [entry], sending - {name}, heard + {name};
        match entry {
          case Failed(_, err) =>
            errors := errors + [err];
          case Got(_, p) =>
            got := got[name := p];
        }
      }
      AllHeard(sel.Keys, heard);
      AllCollected(heard, checkout, arrivals, got, errors);
      if |errors| > 0 {
        handed := ReturnAll(got);
        FailureReturnsAll(pools, sel.Keys, arrivals, got, errors[0]);
        OutcomeByPool(pools, names, checkout, arrivals, Failure(errors[0]), handed);
        return Failure(errors[0]), handed, arrivals;
      }
      SuccessIsAll(pools, sel.Keys, arrivals, got);
      OutcomeByPool(pools, names, checkout, arrivals, Success(got), multiset{});
      return Success(got), multiset{}, arrivals;
    }

    /** Starts a goroutine for each of these pools: those that have not sent yet, and as many as the wait
        group counts. */
    method Launch(sel: map<Name, PoolRef>) returns (sending: set<Name>)
      ensures sending == sel.Keys
    {
      sending := {};
      var wg, rest := 0, sel.Keys;
      while rest != {}
        invariant rest <= sel.Keys && sending == sel.Keys - rest && wg == |sending|
        decreases |rest|
      {
        var name :| name in rest;
        wg, sending, rest := wg + 1, sending + {name}, rest - {name};
      }
    }

    /** Ready when every pool is; otherwise the first error to arrive. Each pool answers once, in any order. */
    method WaitReady(ready: Name -> Option<Error>) returns (err: Option<Error>, order: seq<Name>)
      ensures multiset(order) == multiset(pools.Keys)
      ensures err.None? <==> forall n :: n in pools ==> ready(n).None?
      ensures err.Some? ==> exists k :: 0 <= k < |order| && ready(order[k]) == err && forall j :: 0 <= j < k ==> ready(order[j]).None?
    {
      hide Waited, Split;
      var sending := Launch(pools);
      err, order := None, [];
      ghost var heard: set<Name> := {};
      NothingWaited(ready);
      NoneHeard(sending);
      for count := 0 to |pools|
        invariant Split(pools.Keys, heard, sending) && |sending| == |pools| - count
        invariant Waited(heard, ready, order, err)
      {
        var name :| name in sending;
        OneHeard(pools.Keys, heard, sending, name);
        WaitOne(heard, ready, order, err, name);
        order, sending, heard := order + [name], sending - {name}, heard + {name};
        if ready(name).Some? && err.None? {
          err := ready(name);
        }
      }
      AllHeard(pools.Keys, heard);
      AllWaited(heard, ready, order, err);
    }
  }

  /** Some of the pools have been heard, the others are still sending. */
  ghost predicate Split(all: set<Name>, heard: set<Name>, sending: set<Name>) {
    heard + sending == all && heard !! sending
  }

  lemma NoneHeard(all: set<Name>)
    ensures Split(all, {}, all)
  {
  }

  lemma OneHeard(all: set<Name>, heard: set<Name>, sending: set<Name>, name: Name)
    requires Split(all, heard, sending) && name in sending
    ensures Split(all, heard + {name}, sending - {name}) && name !in heard && |sending - {name}| == |sending| - 1
  {
  }

  lemma AllHeard(all: set<Name>, heard: set<Name>)
    requires Split(all, heard, {})
    ensures heard == all
  {
    assert heard + {} == heard;
  }

  /** What has been received from these pools so far, and what the collector has made of it. */
  ghost predicate Collected(heard: set<Name>, checkout: Name -> Answer, arrivals: seq<Entry>,
                            got: map<Name, Params>, errors: seq<Error>) {
    && Answers(heard, arrivals) && Honest(checkout, arrivals) && Holds(got, arrivals)
    && (errors == [] <==> AllGot(arrivals))
    && (errors != [] ==> FirstError(arrivals, errors[0]))
  }

  lemma NothingCollected(checkout: Name -> Answer)
    ensures Collected({}, checkout, [], map[], [])
  {
  }

  lemma CollectOne(heard: set<Name>, checkout: Name -> Answer, arrivals: seq<Entry>, got: map<Name, Params>,
                   errors: seq<Error>, name: Name)
    requires Collected(heard, checkout, arrivals, got, errors) && name !in heard
    ensures var e := EntryOf(name, checkout(name));
      Collected(heard + {name}, checkout, arrivals + [e],
                if e.Got? then got[name := e.p] else got, if e.Got? then errors else errors + [e.err])
  {
    hide Answers, Holds, AllGot, FirstError;
    OneMore(got, arrivals, heard, EntryOf(name, checkout(name)));
  }

  lemma AllCollected(names: set<Name>, checkout: Name -> Answer, arrivals: seq<Entry>, got: map<Name, Params>, errors: seq<Error>)
    requires Collected(names, checkout, arrivals, got, errors)
    ensures Answers(names, arrivals) && Honest(checkout, arrivals) && Holds(got, arrivals)
    ensures if errors == [] then AllGot(arrivals) && got.Keys == names else !AllGot(arrivals) && FirstError(arrivals, errors[0])
  {
    hide Answers, Holds, FirstError;
    if errors == [] { AllThere(names, got, arrivals); }
  }

  /** Which pools have answered the wait, in which order, and the first error among them. */
  ghost predicate Waited(heard: set<Name>, ready: Name -> Option<Error>, order: seq<Name>, err: Option<Error>) {
    && multiset(order) == multiset(heard)
    && (err.None? <==> forall k :: 0 <= k < |order| ==> ready(order[k]).None?)
    && (err.Some? ==> exists k :: 0 <= k < |order| && ready(order[k]) == err && forall j :: 0 <= j < k ==> ready(order[j]).None?)
  }

  lemma NothingWaited(ready: Name -> Option<Error>)
    ensures Waited({}, ready, [], None)
  {
  }

  lemma WaitOne(heard: set<Name>, ready: Name -> Option<Error>, order: seq<Name>, err: Option<Error>, name: Name)
    requires Waited(heard, ready, order, err) && name !in heard
    ensures Waited(heard + {name}, ready, order + [name], if ready(name).Some? && err.None? then ready(name) else err)
  {
    var all, now := order + [name], if ready(name).Some? && err.None? then ready(name) else err;
    assert forall k :: 0 <= k < |order| ==> all[k] == order[k];
    assert all[|order|] == name;
    if err.Some? {
      var k :| 0 <= k < |order| && ready(order[k]) == err && forall j :: 0 <= j < k ==> ready(order[j]).None?;
      assert ready(all[k]) == now && forall j :: 0 <= j < k ==> ready(all[j]).None?;
    }
  }

  lemma AllWaited(names: set<Name>, ready: Name -> Option<Error>, order: seq<Name>, err: Option<Error>)
    requires Waited(names, ready, order, err)
    ensures multiset(order) == multiset(names)
    ensures err.None? <==> forall n :: n in names ==> ready(n).None?
    ensures err.Some? ==> exists k :: 0 <= k < |order| && ready(order[k]) == err && forall j :: 0 <= j < k ==> ready(order[j]).None?
  {
    forall n ensures n in names <==> n in order {
      assert n in names <==> n in multiset(names);
      assert n in order <==> n in multiset(order);
    }
  }

  lemma NoHandbacks(pools: map<Name, PoolRef>)
    ensures Handbacks(pools, map[]) == multiset{}
  {
  }

  /** One return does its part of returning a whole set. */
  lemma OneReturned(pools: map<Name, PoolRef>, s: map<Name, Params>, name: Name, one: multiset<Handback>)
    requires name in s && |one| <= 1
    requires forall h :: h in one <==> h.name in pools && h.pool == pools[h.name] && h.name == name && h.p == s[name]
    ensures Handbacks(pools, s) == one + Handbacks(pools, s - {name})
  {
    hide Handbacks;
    HandbacksOne(pools, s, name);
    if name in pools {
      OneHandback(one, Handback(name, pools[name], s[name]));
    } else {
      assert one == multiset{};
    }
  }

  lemma OneHandback(handed: multiset<Handback>, h: Handback)
    requires |handed| <= 1 && h in handed
    ensures handed == multiset{h}
  {
    var rest := Remove(handed, h);
    assert rest == multiset{};
  }

  lemma HandbacksOne(pools: map<Name, PoolRef>, s: map<Name, Params>, name: Name)
    requires name in s
    ensures Handbacks(pools, s) == Handbacks(pools, s - {name})
      + if name in pools then multiset{Handback(name, pools[name], s[name])} else multiset{}
  {
    var rest := s - {name};
    var all, less := set n | n in s && n in pools :: Handback(n, pools[n], s[n]),
                     set n | n in rest && n in pools :: Handback(n, pools[n], rest[n]);
    if name in pools {
      assert all == less + {Handback(name, pools[name], s[name])};
    } else {
      assert all == less;
    }
  }

  /** Collecting one more answer. */
  lemma OneMore(got: map<Name, Params>, before: seq<Entry>, names: set<Name>, e: Entry)
    requires Holds(got, before) && Answers(names, before) && e.name !in names
    ensures AllGot(before + [e]) <==> AllGot(before) && e.Got?
    ensures forall err :: FirstError(before, err) ==> FirstError(before + [e], err)
    ensures AllGot(before) && e.Failed? ==> FirstError(before + [e], e.err)
    ensures Holds(if e.Got? then got[e.name := e.p] else got, before + [e])
    ensures Answers(names + {e.name}, before + [e])
  {
    var all := before + [e];
    assert AllGot(all) ==> AllGot(before) && e.Got? by {
      assert forall k :: 0 <= k < |before| ==> all[k] == before[k];
      assert all[|before|] == e;
    }
    forall err | FirstError(before, err) ensures FirstError(all, err) {
      var k :| 0 <= k < |before| && AllGot(before[..k]) && before[k].Failed? && before[k].err == err;
      assert all[..k] == before[..k] && all[k] == before[k];
    }
    if AllGot(before) && e.Failed? {
      assert all[..|before|] == before && all[|before|] == e;
    }
    AnswersMore(names, before, e);
    HoldsMore(got, before, e);
  }

  lemma AnswersMore(names: set<Name>, before: seq<Entry>, e: Entry)
    requires Answers(names, before) && e.name !in names
    ensures Answers(names + {e.name}, before + [e])
  {
    var all := before + [e];
    forall n | n in names + {e.name} ensures exists k :: 0 <= k < |all| && all[k].name == n {
      if n == e.name {
        assert all[|before|].name == n;
      } else {
        var k :| 0 <= k < |before| && before[k].name == n;
        assert all[k].name == n;
      }
    }
  }

  lemma HoldsMore(got: map<Name, Params>, before: seq<Entry>, e: Entry)
    requires Holds(got, before) && forall k :: 0 <= k < |before| ==> before[k].name != e.name
    ensures Holds(if e.Got? then got[e.name := e.p] else got, before + [e])
  {
    var all, more := before + [e], if e.Got? then got[e.name := e.p] else got;
    forall n | n in more ensures exists k :: 0 <= k < |all| && all[k] == Got(n, more[n]) {
      if e.Got? && n == e.name {
        assert all[|before|] == Got(n, more[n]);
      } else {
        var k :| 0 <= k < |before| && before[k] == Got(n, got[n]);
        assert all[k] == before[k];
      }
    }
  }

  lemma AllThere(names: set<Name>, got: map<Name, Params>, arrivals: seq<Entry>)
    requires Answers(names, arrivals) && AllGot(arrivals) && Holds(got, arrivals)
    ensures got.Keys == names
  {
    forall n ensures n in got <==> n in names {
      if n in got {
        var k :| 0 <= k < |arrivals| && arrivals[k] == Got(n, got[n]);
      }
      if n in names {
        var k :| 0 <= k < |arrivals| && arrivals[k].name == n;
      }
    }
  }

  /** Two sets that hold the same answers, received in any two orders, are the same set. */
  lemma HoldsIsUnique(names: set<Name>, xs: seq<Entry>, ys: seq<Entry>, s: map<Name, Params>, t: map<Name, Params>)
    requires Answers(names, xs) && Answers(names, ys) && multiset(xs) == multiset(ys)
    requires Holds(s, xs) && Holds(t, ys)
    ensures s == t
  {
    forall n | n in s ensures n in t && t[n] == s[n] {
      var k :| 0 <= k < |xs| && xs[k] == Got(n, s[n]);
      assert xs[k] in multiset(ys);
    }
    forall n | n in t ensures n in s {
      var k :| 0 <= k < |ys| && ys[k] == Got(n, t[n]);
      assert ys[k] in multiset(xs);
    }
  }

  /** The order of arrival decides nothing but which error is reported: success or not, the set handed out
      and the items handed back are the same. */
  lemma ArrivalOrderIrrelevant(pools: map<Name, PoolRef>, names: set<Name>, xs: seq<Entry>, ys: seq<Entry>,
                               r: SetResult, handed: multiset<Handback>, r': SetResult, handed': multiset<Handback>)
    requires Answers(names, xs) && Answers(names, ys) && multiset(xs) == multiset(ys)
    requires AllOrNothing(pools, names, xs, r, handed) && AllOrNothing(pools, names, ys, r', handed')
    ensures r.Success? <==> r'.Success?
    ensures r.Success? ==> r' == r
    ensures handed' == handed
  {
    if AllGot(xs) { SameSuccess(xs, ys); }
    if AllGot(ys) { SameSuccess(ys, xs); }
    if r.Success? {
      HoldsIsUnique(names, xs, ys, r.set_, r'.set_);
    } else {
      var s :| Holds(s, xs) && handed == Handbacks(pools, s);
      var t :| Holds(t, ys) && handed' == Handbacks(pools, t);
      HoldsIsUnique(names, xs, ys, s, t);
    }
  }

  lemma SameSuccess(xs: seq<Entry>, ys: seq<Entry>)
    requires multiset(xs) == multiset(ys) && AllGot(xs)
    ensures AllGot(ys)
  {
    forall k | 0 <= k < |ys| ensures ys[k].Got? {
      assert ys[k] in multiset(xs);
    }
  }

  lemma FailureReturnsAll(pools: map<Name, PoolRef>, names: set<Name>, arrivals: seq<Entry>, got: map<Name, Params>, err: Error)
    requires !AllGot(arrivals) && Holds(got, arrivals) && FirstError(arrivals, err)
    ensures AllOrNothing(pools, names, arrivals, Failure(err), Handbacks(pools, got))
  {
  }

  lemma SuccessIsAll(pools: map<Name, PoolRef>, names: set<Name>, arrivals: seq<Entry>, got: map<Name, Params>)
    requires AllGot(arrivals) && Holds(got, arrivals) && got.Keys == names
    ensures AllOrNothing(pools, names, arrivals, Success(got), multiset{})
  {
  }

  /** What one pool's answer does to the outcome, whatever the order: its item is in the set, or goes back. */
  lemma AnswerOf(names: set<Name>, checkout: Name -> Answer, arrivals: seq<Entry>, got: map<Name, Params>, n: Name)
    requires Answers(names, arrivals) && Honest(checkout, arrivals) && Holds(got, arrivals)
    ensures n in got <==> n in names && checkout(n).Item?
    ensures n in got ==> checkout(n) == Item(got[n])
  {
    if n in got {
      var k :| 0 <= k < |arrivals| && arrivals[k] == Got(n, got[n]);
    }
    if n in names {
      var k :| 0 <= k < |arrivals| && arrivals[k].name == n;
    }
  }

  lemma EveryAnswer(names: set<Name>, checkout: Name -> Answer, arrivals: seq<Entry>)
    requires Answers(names, arrivals) && Honest(checkout, arrivals)
    ensures AllGot(arrivals) <==> forall n :: n in names ==> checkout(n).Item?
  {
    if AllGot(arrivals) {
      forall n | n in names ensures checkout(n).Item? {
        var k :| 0 <= k < |arrivals| && arrivals[k].name == n;
      }
    }
  }

  /** The outcome in terms of what was asked for and what each pool gave, and of nothing else. */
  lemma OutcomeByPool(pools: map<Name, PoolRef>, names: seq<Name>, checkout: Name -> Answer, arrivals: seq<Entry>,
                      r: SetResult, handed: multiset<Handback>)
    requires Answers(Selected(pools, names).Keys, arrivals) && Honest(checkout, arrivals)
    requires AllOrNothing(pools, Selected(pools, names).Keys, arrivals, r, handed)
    ensures r.Success? <==> forall n :: n in pools && (names == [] || n in names) ==> checkout(n).Item?
    ensures r.Success? ==> handed == multiset{} && forall n ::
      if n in pools && (names == [] || n in names) then n in r.set_ && checkout(n) == Item(r.set_[n]) else n !in r.set_
    ensures r.Failure? ==> exists n :: n in pools && (names == [] || n in names) && checkout(n) == NoItem(r.err)
    ensures r.Failure? ==> forall h ::
      handed[h] == if h.name in pools && (names == [] || h.name in names) && h.pool == pools[h.name] && checkout(h.name) == Item(h.p) then 1 else 0
  {
    var sel := Selected(pools, names).Keys;
    forall n ensures n in sel <==> n in pools && (names == [] || n in names) {}
    hide Selected, Answers, Honest;
    EveryAnswer(sel, checkout, arrivals);
    if r.Success? {
      forall n ensures (n in r.set_ <==> n in sel) && (n in r.set_ ==> checkout(n) == Item(r.set_[n])) {
        AnswerOf(sel, checkout, arrivals, r.set_, n);
      }
    } else {
      var got :| Holds(got, arrivals) && handed == Handbacks(pools, got);
      ErrorOf(sel, checkout, arrivals, r.err);
      forall h ensures handed[h] == Bit(h.name in sel && h.pool == pools[h.name] && checkout(h.name) == Item(h.p)) {
        AnswerOf(sel, checkout, arrivals, got, h.name);
      }
    }
  }

  lemma ErrorOf(names: set<Name>, checkout: Name -> Answer, arrivals: seq<Entry>, err: Error)
    requires Answers(names, arrivals) && Honest(checkout, arrivals) && FirstError(arrivals, err)
    ensures exists n :: n in names && checkout(n) == NoItem(err)
  {
    var k :| 0 <= k < |arrivals| && AllGot(arrivals[..k]) && arrivals[k].Failed? && arrivals[k].err == err;
    assert checkout(arrivals[k].name) == NoItem(err);
  }

  /** Nothing is lost: every item obtained is handed out, or handed back once to the pool it came from. */
  lemma ItemsConserved(pools: map<Name, PoolRef>, names: set<Name>, arrivals: seq<Entry>, r: SetResult,
                       handed: multiset<Handback>, k: nat)
    requires Answers(names, arrivals) && names <= pools.Keys && AllOrNothing(pools, names, arrivals, r, handed)
    requires k < |arrivals| && arrivals[k].Got?
    ensures
      var e := arrivals[k];
      var back := Handback(e.name, pools[e.name], e.p);
      if r.Success? then e.name in r.set_ && r.set_[e.name] == e.p && back !in handed else handed[back] == 1
  {
    var e := arrivals[k];
    if r.Failure? {
      var got :| Holds(got, arrivals) && handed == Handbacks(pools, got);
      assert e.name in got && got[e.name] == e.p && e.name in pools;
      var backs := set n | n in got && n in pools :: Handback(n, pools[n], got[n]);
      assert Handback(e.name, pools[e.name], e.p) in backs;
      assert multiset(backs)[Handback(e.name, pools[e.name], e.p)] == 1;
    }
  }
}
