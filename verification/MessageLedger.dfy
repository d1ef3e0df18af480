/**
 Conservation of the page's messages: on its way through bridge and worker a
 message is always in exactly one place, and as long as it has not settled
 its promise is listened for.
 */
module MessageLedger {
  import opened Prelude
  import opened SessionKey
  import opened Approvals
  import opened Correlation
  import opened MessageIds

  /** Posted and not handled, awaited on a runtime channel, settled, or lost before it reached the bridge. */
  datatype Place = InMail(m: nat) | OnChannel(rid: nat) | SettledAt(i: nat) | Lost

  ghost predicate At(w: World, p: Place, id: string) {
    match p
    case InMail(m) => m in w.mail && w.mail[m].id == id
    case OnChannel(rid) => rid in w.channels && w.channels[rid] == id
    case SettledAt(i) => i < |w.settled| && w.settled[i].id == id
    case Lost => id in w.lost
  }

  ghost predicate HasSettled(w: World, id: string) {
    exists i :: At(w, SettledAt(i), id)
  }

  ghost predicate OnePlace(w: World) {
    && (forall p, id :: At(w, p, id) ==> id in w.sent)
    && (forall p, q, id :: At(w, p, id) && At(w, q, id) ==> p == q)
    && (forall id :: id in w.sent ==> exists p :: At(w, p, id))
    && (forall id :: id in w.listeners <==> id in w.sent && !HasSettled(w, id))
  }

  // ------------------------------------------------------------------
  // Moves
  // ------------------------------------------------------------------

  /** Message `id`, and no other, went from one place to another. */
  ghost predicate Moves(w: World, w': World, id: string, p: Place, q: Place) {
    && w'.sent == w.sent && At(w, p, id)
    && (forall r, i :: At(w', r, i) <==> if i == id then r == q else At(w, r, i))
    && (forall i :: i in w'.listeners <==> i in w.listeners && !(q.SettledAt? && i == id))
    && !p.SettledAt?
  }

  lemma MoveKeeps(w: World, w': World, id: string, p: Place, q: Place)
    requires OnePlace(w) && Moves(w, w', id, p, q)
    ensures OnePlace(w')
  {
    forall i | i in w'.sent ensures exists r :: At(w', r, i) {
      if i == id {
        assert At(w', q, i);
      } else {
        var r :| At(w, r, i);
        assert At(w', r, i);
      }
    }
    forall i | i in w.sent ensures HasSettled(w', i) <==> HasSettled(w, i) || (q.SettledAt? && i == id) {
      SettledMoves(w, w', id, p, q, i);
    }
  }

  lemma SettledMoves(w: World, w': World, id: string, p: Place, q: Place, i: string)
    requires OnePlace(w) && Moves(w, w', id, p, q)
    ensures HasSettled(w', i) <==> HasSettled(w, i) || (q.SettledAt? && i == id)
  {
    if i == id {
      assert forall k :: !At(w, SettledAt(k), i);
      if q.SettledAt? {
        assert At(w', SettledAt(q.i), i);
      }
      if HasSettled(w', i) {
        var k :| At(w', SettledAt(k), i);
        assert SettledAt(k) == q;
      }
    } else {
      assert forall k :: At(w', SettledAt(k), i) <==> At(w, SettledAt(k), i);
    }
  }

  /** A new message was posted and is listened for. */
  ghost predicate Posts(w: World, w': World, id: string, m: nat) {
    && id !in w.sent && (forall i :: i in w'.sent <==> i in w.sent || i == id)
    && (forall r, i :: At(w', r, i) <==> At(w, r, i) || (r == InMail(m) && i == id))
    && w'.listeners == w.listeners + {id}
  }

  lemma PostKeepsPlaces(w: World, w': World, id: string, m: nat)
    requires OnePlace(w) && Posts(w, w', id, m)
    ensures OnePlace(w')
  {
    forall i | i in w'.sent ensures exists r :: At(w', r, i) {
      if i == id {
        assert At(w', InMail(m), i);
      } else {
        var r :| At(w, r, i);
        assert At(w', r, i);
      }
    }
    forall i | i in w'.sent ensures HasSettled(w', i) <==> HasSettled(w, i) {
      assert forall k :: At(w', SettledAt(k), i) <==> At(w, SettledAt(k), i);
    }
  }

  /** Nothing that places depend on changed. */
  lemma SamePlaces(w: World, w': World)
    requires OnePlace(w) && w'.sent == w.sent && w'.mail == w.mail && w'.channels == w.channels
    requires w'.settled == w.settled && w'.lost == w.lost && w'.listeners == w.listeners
    ensures OnePlace(w')
  {
    assert forall p, id :: At(w', p, id) <==> At(w, p, id);
    forall i ensures HasSettled(w', i) <==> HasSettled(w, i) {
      assert forall k :: At(w', SettledAt(k), i) <==> At(w, SettledAt(k), i);
    }
  }

  // ------------------------------------------------------------------
  // Every step
  // ------------------------------------------------------------------

  lemma PostStep(w: World, b: nat, now: nat)
    requires OnePlace(w) && b in w.batches && IdsMinted(w.counter, w.sent)
    requires forall m :: m in w.mail ==> m < w.nextMail
    ensures OnePlace(Post(w, b, now))
  {
    var id := MessageId(now, w.counter);
    FreshId(w, now);
    PostKeepsPlaces(w, Post(w, b, now), id, w.nextMail);
  }

  lemma CallPlaces(w: World, first: seq<Origin>, kind: Kind, inputs: seq<string>, now: nat)
    requires WorldOk(w, first) && OnePlace(w)
    ensures OnePlace(StepCall(w, kind, inputs, now))
  {
    var payloads := Payloads(kind, inputs);
    var batch := Batch(kind, payloads, [], [], if payloads == [] then Returned else Running);
    var called := WithBatch(w, batch);
    SamePlaces(w, called);
    if payloads != [] {
      PostStep(called, w.nextBatch, now);
    }
  }

  /** The new world holds what the old one held, but for the message that left `p` for `q`. */
  ghost predicate Transfers(w: World, w': World, id: string, p: Place, q: Place) {
    && At(w, p, id) && At(w', q, id) && (forall i :: At(w, p, i) ==> i == id)
    && (forall r, i :: At(w', r, i) ==> (r == q && i == id) || (At(w, r, i) && r != p))
    && (forall r, i :: At(w, r, i) ==> r == p || At(w', r, i))
  }

  lemma TransferMoves(w: World, w': World, id: string, p: Place, q: Place)
    requires OnePlace(w) && Transfers(w, w', id, p, q) && w'.sent == w.sent && !p.SettledAt?
    requires forall i :: i in w'.listeners <==> i in w.listeners && !(q.SettledAt? && i == id)
    ensures Moves(w, w', id, p, q)
  {
    assert forall r :: At(w, r, id) ==> r == p;
  }

  lemma BridgeMoves(w: World, first: seq<Origin>, m: nat)
    requires WorldOk(w, first) && OnePlace(w) && StepCarryToBridge(w, m) != w
    ensures Moves(w, StepCarryToBridge(w, m), w.mail[m].id, InMail(m), OnChannel(w.worker.nextRid))
  {
    var w', id, rid := StepCarryToBridge(w, m), w.mail[m].id, w.worker.nextRid;
    assert rid !in w.channels;
    assert w'.mail == w.mail - {m} && w'.channels == w.channels[rid := id];
    assert w'.settled == w.settled && w'.lost == w.lost;
    ChannelTransfers(w, w', m, rid);
    TransferMoves(w, w', id, InMail(m), OnChannel(rid));
  }

  lemma ChannelTransfers(w: World, w': World, m: nat, rid: nat)
    requires m in w.mail && rid !in w.channels
    requires w'.mail == w.mail - {m} && w'.channels == w.channels[rid := w.mail[m].id]
    requires w'.settled == w.settled && w'.lost == w.lost
    ensures Transfers(w, w', w.mail[m].id, InMail(m), OnChannel(rid))
  {
  }

  lemma CarryToBridgePlaces(w: World, first: seq<Origin>, m: nat)
    requires WorldOk(w, first) && OnePlace(w)
    ensures OnePlace(StepCarryToBridge(w, m))
  {
    if StepCarryToBridge(w, m) != w {
      BridgeMoves(w, first, m);
      MoveKeeps(w, StepCarryToBridge(w, m), w.mail[m].id, InMail(m), OnChannel(w.worker.nextRid));
    }
  }

  lemma ReplyMoves(w: World, rid: nat, outcome: Outcome)
    requires OnePlace(w) && rid in w.channels && forall m :: m in w.mail ==> m < w.nextMail
    ensures Moves(w, StepReply(w, rid, outcome), w.channels[rid], OnChannel(rid), InMail(w.nextMail))
  {
    var w', id := StepReply(w, rid, outcome), w.channels[rid];
    assert Transfers(w, w', id, OnChannel(rid), InMail(w.nextMail));
    TransferMoves(w, w', id, OnChannel(rid), InMail(w.nextMail));
  }

  lemma ReplyPlaces(w: World, first: seq<Origin>, rid: nat, outcome: Outcome)
    requires WorldOk(w, first) && OnePlace(w) && rid in w.channels
    ensures OnePlace(StepReply(w, rid, outcome))
  {
    ReplyMoves(w, rid, outcome);
    MoveKeeps(w, StepReply(w, rid, outcome), w.channels[rid], OnChannel(rid), InMail(w.nextMail));
  }

  lemma LosePlaces(w: World, m: nat)
    requires OnePlace(w)
    ensures OnePlace(StepLoseMail(w, m))
  {
    if m in w.mail && w.mail[m].ToBridge? {
      var w', id := StepLoseMail(w, m), w.mail[m].id;
      assert Transfers(w, w', id, InMail(m), Lost);
      TransferMoves(w, w', id, InMail(m), Lost);
      MoveKeeps(w, w', id, InMail(m), Lost);
    }
  }

  /** The promise of this message settles. */
  function SettledBy(w: World, m: nat): World
    requires m in w.mail && w.mail[m].ToProvider?
  {
    var ToProvider(id, outcome) := w.mail[m];
    w.(mail := w.mail - {m}, listeners := w.listeners - {id}, settled := w.settled + [Settlement(id, outcome)])
  }

  lemma SettlePlaces(w: World, m: nat)
    requires OnePlace(w) && m in w.mail && w.mail[m].ToProvider?
    ensures OnePlace(SettledBy(w, m)) && w.mail[m].id in w.listeners
  {
    var w', id, n := SettledBy(w, m), w.mail[m].id, |w.settled|;
    assert At(w, InMail(m), id);
    assert !HasSettled(w, id);
    assert forall k :: 0 <= k < n ==> w'.settled[k] == w.settled[k];
    assert Transfers(w, w', id, InMail(m), SettledAt(n));
    TransferMoves(w, w', id, InMail(m), SettledAt(n));
    MoveKeeps(w, w', id, InMail(m), SettledAt(n));
  }

  lemma ResumePlaces(w: World, b: nat, outcome: Outcome, now: nat)
    requires OnePlace(w) && IdsMinted(w.counter, w.sent) && forall m :: m in w.mail ==> m < w.nextMail
    ensures OnePlace(ResumeBatch(w, b, outcome, now))
  {
    if b in w.batches {
      var batch := w.batches[b];
      if IsError(outcome) || Accept(batch.kind, outcome.reply).None? {
        SamePlaces(w, ResumeBatch(w, b, outcome, now));
      } else {
        var results := batch.results + [Accept(batch.kind, outcome.reply).value];
        if |results| == |batch.inputs| {
          SamePlaces(w, ResumeBatch(w, b, outcome, now));
        } else {
          var next := w.(batches := w.batches[b := batch.(results := results)]);
          SamePlaces(w, next);
          PostStep(next, b, now);
        }
      }
    }
  }

  lemma CarryToProviderPlaces(w: World, first: seq<Origin>, m: nat, now: nat)
    requires WorldOk(w, first) && OnePlace(w)
    ensures OnePlace(StepCarryToProvider(w, m, now))
  {
    if m in w.mail && w.mail[m].ToProvider? {
      SettlePlaces(w, m);
      ResumePlaces(SettledBy(w, m), w.sent[w.mail[m].id].batch, w.mail[m].outcome, now);
    }
  }

  lemma RelayPlaces(w: World, first: seq<Origin>, rid: nat, reply: Reply)
    requires WorldOk(w, first) && OnePlace(w)
    ensures OnePlace(StepRelay(w, rid, reply))
  {
    if rid in w.channels && Answered(rid, reply) in w.worker.log {
      ReplyPlaces(w, first, rid, FromWorker(rid, reply));
    }
  }

  lemma BreakPlaces(w: World, first: seq<Origin>, rid: nat)
    requires WorldOk(w, first) && OnePlace(w)
    ensures OnePlace(StepBreakChannel(w, rid))
  {
    if rid in w.channels {
      ReplyPlaces(w, first, rid, BridgeError);
    }
  }

  lemma PagePlaces(w: World, first: seq<Origin>, a: WorldAction)
    requires WorldOk(w, first) && OnePlace(w) && (a.Call? || a.CarryToBridge? || a.CarryToProvider?)
    ensures OnePlace(StepWorld(w, a))
  {
    match a
    case Call(kind, inputs, now) => CallPlaces(w, first, kind, inputs, now);
    case CarryToBridge(m) => CarryToBridgePlaces(w, first, m);
    case CarryToProvider(m, now) => CarryToProviderPlaces(w, first, m, now);
  }

  lemma StepPlaces(w: World, first: seq<Origin>, a: WorldAction)
    requires WorldOk(w, first) && OnePlace(w)
    ensures OnePlace(StepWorld(w, a))
  {
    match a
    case LoseMail(m) => LosePlaces(w, m);
    case Relay(rid, reply) => RelayPlaces(w, first, rid, reply);
    case BreakChannel(rid) => BreakPlaces(w, first, rid);
    case Background(action) => SamePlaces(w, StepBackground(w, action));
    case _ => PagePlaces(w, first, a);
  }

  lemma {:induction false} RunPlaces(page: Option<Origin>, first: seq<Origin>, wallet: Wallet,
      actions: seq<WorldAction>)
    ensures OnePlace(After(page, first, wallet, actions))
  {
    if actions == [] {
      assert forall p, id :: !At(After(page, first, wallet, []), p, id);
    } else {
      var front := actions[..|actions| - 1];
      RunPlaces(page, first, wallet, front);
      RunWorldKeeps(page, first, wallet, front);
      StepPlaces(After(page, first, wallet, front), first, actions[|actions| - 1]);
    }
  }

  /**
   However mail and channels are reordered: a message that was sent is in
   exactly one place, and its promise is listened for exactly until it has
   settled. Nothing that was not sent is anywhere.
   */
  lemma MessagesAreConserved(page: Option<Origin>, first: seq<Origin>, wallet: Wallet, actions: seq<WorldAction>,
      id: string)
    ensures var w := After(page, first, wallet, actions);
      && (id in w.sent <==> exists p :: At(w, p, id))
      && (forall p, q :: At(w, p, id) && At(w, q, id) ==> p == q)
      && (id in w.listeners <==> id in w.sent && !HasSettled(w, id))
  {
    RunPlaces(page, first, wallet, actions);
  }
}
