/**
 A dApp page with the provider and the bridge content scripts around a
 background worker (loyal-wallet-provider.content.ts,
 loyal-wallet-bridge.content.ts): counters, listeners and batches as fields,
 each handler as a method that updates them in place. Every method is tied to
 the composed machine's step function, on which the results are proved.
 */
module DappPage {
  import opened Prelude
  import opened Approvals
  import opened BackgroundWorker
  import opened Correlation
  import opened MessageIds

  class Page {
    const origin: Option<Origin>
    const background: Worker

    // The provider script.
    var messageCounter: nat
    var batches: map<nat, Batch>
    var nextBatch: nat
    var sent: map<string, Sent>
    var listeners: set<string>
    ghost var settled: seq<Settlement>

    // Window messages that were posted and not yet handled.
    var mail: map<nat, Mail>
    var nextMail: nat

    // The bridge's runtime channels.
    var channels: map<nat, string>
    ghost var routed: map<nat, string>
    ghost var lost: set<string>

    ghost function View(): World
      reads this, background
    {
      World(origin, background.View(), messageCounter, batches, nextBatch, sent, listeners, mail, nextMail,
            channels, routed, settled, lost)
    }

    constructor (origin: Option<Origin>, background: Worker)
      ensures View() == InitWorld(origin, background.View()) && this.background == background
    {
      this.origin, this.background := origin, background;
      messageCounter, batches, nextBatch := 0, map[], 0;
      sent, listeners, settled := map[], {}, [];
      mail, nextMail, channels, routed, lost := map[], 0, map[], map[], {};
    }

    method PostMessage(message: Mail)
      modifies this`mail, this`nextMail
      ensures mail == old(mail)[old(nextMail) := message] && nextMail == old(nextMail) + 1
    {
      mail := mail[nextMail := message];
      nextMail := nextMail + 1;
    }

    // ----------------------------------------------------------------
    // The provider
    // ----------------------------------------------------------------

    /** The next turn of a batch's loop: a fresh id, a listener for it, and the message itself. */
    method SendBridgeMessage(b: nat, now: nat)
      requires b in batches
      modifies this`messageCounter, this`batches, this`sent, this`listeners, this`mail, this`nextMail
      ensures View() == Post(old(View()), b, now)
    {
      var id := MessageId(now, messageCounter);
      messageCounter := messageCounter + 1;
      sent := sent[id := Sent(b, |batches[b].ids|)];
      batches := batches[b := batches[b].(ids := batches[b].ids + [id])];
      listeners := listeners + {id};
      PostMessage(ToBridge(id));
      assert background.View() == old(background.View());
    }

    /** connect, signTransaction or signMessage, up to the first await. */
    method CallWallet(kind: Kind, inputs: seq<string>, now: nat)
      modifies this
      ensures View() == StepWorld(old(View()), Call(kind, inputs, now))
    {
      var b := nextBatch;
      var payloads := if kind.Connect? then [""] else inputs;
      batches := batches[b := Batch(kind, payloads, [], [], if payloads == [] then Returned else Running)];
      nextBatch := nextBatch + 1;
      if payloads != [] {
        SendBridgeMessage(b, now);
      }
    }

    /** A batch's promise settled: throw, or push the result and go on with the loop. */
    method ContinueBatch(b: nat, outcome: Outcome, now: nat)
      modifies this
      ensures View() == ResumeBatch(old(View()), b, outcome, now)
    {
      if b !in batches {
        return;
      }
      var batch := batches[b];
      if IsError(outcome) || Accept(batch.kind, outcome.reply).None? {
        batches := batches[b := batch.(status := Threw)];
        return;
      }
      var results := batch.results + [Accept(batch.kind, outcome.reply).value];
      if |results| == |batch.inputs| {
        batches := batches[b := batch.(results := results, status := Returned)];
        return;
      }
      batches := batches[b := batch.(results := results)];
      SendBridgeMessage(b, now);
    }

    /** The listener that `sendBridgeMessage` registered removes itself and settles its promise. */
    method OnProviderMessage(m: nat, now: nat)
      modifies this
      ensures View() == StepWorld(old(View()), CarryToProvider(m, now))
    {
      if m !in mail || !mail[m].ToProvider? {
        return;
      }
      var ToProvider(id, outcome) := mail[m];
      mail := mail - {m};
      if id !in listeners || id !in sent {
        return;
      }
      listeners := listeners - {id};
      settled := settled + [Settlement(id, outcome)];
      ContinueBatch(sent[id].batch, outcome, now);
    }

    // ----------------------------------------------------------------
    // The bridge
    // ----------------------------------------------------------------

    /** Forward the payload over a new channel; the worker's listener runs with the page's verified origin. */
    method OnBridgeMessage(m: nat)
      modifies this, background
      ensures View() == StepWorld(old(View()), CarryToBridge(m))
    {
      if m !in mail || !mail[m].ToBridge? {
        return;
      }
      var id := mail[m].id;
      if id !in sent || sent[id].batch !in batches || sent[id].index >= |batches[sent[id].batch].inputs| {
        return;
      }
      var batch := batches[sent[id].batch];
      mail := mail - {m};
      Forward(id, batch.kind, batch.inputs[sent[id].index]);
    }

    /** `runtime.sendMessage`: the channel's number is the one the worker gives the request. */
    method Forward(id: string, kind: Kind, payload: string)
      modifies this`channels, this`routed, background
      ensures channels == old(channels)[old(background.nextRid) := id]
      ensures routed == old(routed)[old(background.nextRid) := id]
      ensures background.View() == Step(old(background.View()), Receive(kind, origin, payload))
    {
      channels := channels[background.nextRid := id];
      routed := routed[background.nextRid := id];
      background.OnDappRequest(kind, origin, payload);
    }

    /** The context was invalidated: the handler returns without a reply. */
    method IgnoreMessage(m: nat)
      modifies this`mail, this`lost
      ensures View() == StepWorld(old(View()), LoseMail(m))
    {
      if m in mail && mail[m].ToBridge? {
        lost := lost + {mail[m].id};
        mail := mail - {m};
      }
    }

    /** The awaited channel resolved or rejected: post the reply under the message's own id. */
    method OnChannelEnd(rid: nat, outcome: Outcome)
      requires rid in channels
      modifies this`mail, this`nextMail, this`channels
      ensures View() == StepReply(old(View()), rid, outcome)
    {
      PostMessage(ToProvider(channels[rid], outcome));
      channels := channels - {rid};
    }

    // ----------------------------------------------------------------
    // Whole runs
    // ----------------------------------------------------------------

    /** `answered` says of a relay whether the worker did call that response back; a channel resolves only then. */
    method Perform(a: WorldAction, answered: bool)
      requires a.Relay? ==> (answered <==> Answered(a.rid, a.reply) in background.log)
      modifies this, background
      ensures View() == StepWorld(old(View()), a)
    {
      match a
      case Call(kind, inputs, now) => CallWallet(kind, inputs, now);
      case CarryToBridge(m) => OnBridgeMessage(m);
      case LoseMail(m) => IgnoreMessage(m);
      case Relay(rid, reply) => if rid in channels && answered { OnChannelEnd(rid, FromWorker(rid, reply)); }
      case BreakChannel(rid) => if rid in channels { OnChannelEnd(rid, BridgeError); }
      case CarryToProvider(m, now) => OnProviderMessage(m, now);
      case Background(action) => background.Perform(action);
    }
  }
}
