/**
 Properties of `process` over a whole batch: updates are handled in list order,
 the batch is confirmed exactly when no update throws, and a store whose users
 and chat configs are paired never reaches the `Optional.get()` fault.
 */
module BatchProperties {
  import opened Wrappers
  import opened Updates
  import opened Store
  import opened Listener

  /** Running `xs` then `ys` is running `xs + ys`: the second part starts from the store the
      first left and its events follow the first part's, unless the first part threw. */
  lemma {:induction false} ProcessAppend(bot: Bot, store: Store, xs: seq<Arrival>, ys: seq<Arrival>)
    ensures var p := Process(bot, store, xs);
      Process(bot, store, xs + ys) ==
        if p.outcome.ConfirmedAll? then
          var q := Process(bot, p.store, ys);
          Batch(q.store, p.sent + q.sent, q.outcome)
        else p
    decreases |xs|
  {
    if |xs| == 0 {
      assert xs + ys == ys;
    } else {
      assert (xs + ys)[0] == xs[0];
      assert (xs + ys)[1..] == xs[1..] + ys;
      var step := ProcessUpdate(bot, store, xs[0]);
      if step.fault.None? {
        ProcessAppend(bot, step.store, xs[1..], ys);
        var p := Process(bot, step.store, xs[1..]);
        if p.outcome.ConfirmedAll? {
          var q := Process(bot, p.store, ys);
          assert step.sent + (p.sent + q.sent) == (step.sent + p.sent) + q.sent;
        }
      }
    }
  }

  /** One update alone: its step, confirmed unless it threw. */
  lemma ProcessSingle(bot: Bot, store: Store, a: Arrival)
    ensures var s := ProcessUpdate(bot, store, a);
      Process(bot, store, [a]) ==
        Batch(s.store, s.sent, if s.fault.Some? then Aborted(s.fault.value) else ConfirmedAll)
  {
  }

  /** Every update that is reached (all before it were confirmed) handles without a fault. */
  predicate NoStepFaults(bot: Bot, store: Store, arrivals: seq<Arrival>) {
    forall k | 0 <= k < |arrivals| ::
      var p := Process(bot, store, arrivals[..k]);
      p.outcome.ConfirmedAll? ==> ProcessUpdate(bot, p.store, arrivals[k]).fault.None?
  }

  /** `process` returns `CONFIRMED_UPDATES_ALL` exactly when no update of the batch throws. */
  lemma {:induction false} ConfirmedIffNoFault(bot: Bot, store: Store, arrivals: seq<Arrival>)
    ensures Process(bot, store, arrivals).outcome == ConfirmedAll <==> NoStepFaults(bot, store, arrivals)
    decreases |arrivals|
  {
    if |arrivals| == 0 {
    } else {
      var n := |arrivals| - 1;
      var xs, x := arrivals[..n], arrivals[n];
      assert arrivals == xs + [x];
      ConfirmedIffNoFault(bot, store, xs);
      ProcessAppend(bot, store, xs, [x]);
      var p := Process(bot, store, xs);
      ProcessSingle(bot, p.store, x);
      assert arrivals[..n] == xs;
      forall k | 0 <= k < n
        ensures arrivals[..k] == xs[..k] && arrivals[k] == xs[k]
      {
      }
      if NoStepFaults(bot, store, arrivals) {
        assert NoStepFaults(bot, store, xs);
      }
    }
  }

  /** When users and chat configs are paired, no update ever fails on `Optional.get()`. */
  lemma {:induction false} PairedNeverMissesARecord(bot: Bot, store: Store, arrivals: seq<Arrival>)
    requires Paired(store)
    ensures Process(bot, store, arrivals).outcome != Aborted(NoSuchElement)
    decreases |arrivals|
  {
    if |arrivals| > 0 {
      var step := ProcessUpdate(bot, store, arrivals[0]);
      assert step.fault != Some(NoSuchElement);
      if step.fault.None? {
        PairedNeverMissesARecord(bot, step.store, arrivals[1..]);
      }
    }
  }

  /** A brand-new chat is bootstrapped once: a second update from the same sender, right after
      the first, leaves the store as the first update left it. */
  lemma SecondContactIsNotNew(bot: Bot, store: Store, a1: Arrival, a2: Arrival, id: ChatId)
    requires id !in store.users && id !in store.configs
    requires exists s :: Attribute(a1.update, CheckingUpdate(a1.update)) == Some(s) && s.chatId == id
    requires exists s :: Attribute(a2.update, CheckingUpdate(a2.update)) == Some(s) && s.chatId == id
    ensures Process(bot, store, [a1, a2]).store == ProcessUpdate(bot, store, a1).store
    ensures ProcessUpdate(bot, store, a1).store.users.Keys == store.users.Keys + {id}
  {
  }
}
