/**
 * Whose acks a node accepts. The node learns its client's address from the
 * first ack of a channel, which anyone may send, and never changes it.
 */
module Acks {
  import opened Base
  import opened ChannelSpec
  import N = NodeSpec
  import opened Protocol
  import opened Safety
  import opened Theorems
  import opened Scenarios

  lemma AddressStep(p: Params, w: World, act: Action, a: Address, id: ChannelId)
    requires Entry(w, a, id).clientAddress.Some?
    ensures Entry(Step(p, w, act), a, id).clientAddress == Entry(w, a, id).clientAddress
  {
  }

  /** Once learned, a channel's client address is the same for the rest of any run. */
  lemma {:induction false} AddressIsConstant(p: Params, w: World, acts: seq<Action>, a: Address, id: ChannelId)
    requires Entry(w, a, id).clientAddress.Some?
    ensures Entry(Run(p, w, acts), a, id).clientAddress == Entry(w, a, id).clientAddress
    decreases |acts|
  {
    if acts != [] {
      AddressStep(p, w, acts[0], a, id);
      AddressIsConstant(p, Step(p, w, acts[0]), acts[1..], a, id);
    }
  }

  /** An ack for this channel, in range, signed by this account. */
  predicate AckBy(ack: N.ClientAck, id: ChannelId, client: Address) {
    ack.update.id == id && ack.update.cumOwed < U128_LIMIT && ack.clientSig == Some(Genuine(client, ack.update))
  }

  predicate Accepts(w: World, a: Address, id: ChannelId, ack: N.ClientAck) {
    N.VerifyAck(Entry(w, a, id), ack, id).Success?
  }

  /** From here on no ack of the channel's client will ever be accepted. */
  ghost predicate LockedOut(p: Params, w: World, a: Address, id: ChannelId, client: Address) {
    forall acts, ack :: Legal(p, w, acts) && AckBy(ack, id, client) ==> !Accepts(Run(p, w, acts), a, id, ack)
  }

  /**
   * A client is locked out, for the rest of every run, exactly when the signer
   * the node learned first is someone else; otherwise any ack of its is
   * accepted now.
   */
  lemma LockedOutIff(p: Params, w: World, a: Address, id: ChannelId, client: Address)
    ensures LockedOut(p, w, a, id, client)
            <==> Entry(w, a, id).clientAddress.Some? && Entry(w, a, id).clientAddress != Some(Account(client))
    ensures !LockedOut(p, w, a, id, client) ==> forall ack :: AckBy(ack, id, client) ==> Accepts(w, a, id, ack)
  {
    if Entry(w, a, id).clientAddress.Some? && Entry(w, a, id).clientAddress != Some(Account(client)) {
      forall acts, ack | Legal(p, w, acts) && AckBy(ack, id, client) ensures !Accepts(Run(p, w, acts), a, id, ack) {
        AddressIsConstant(p, w, acts, a, id);
      }
    } else {
      var u := Update(id, 0, 0);
      var ack := N.ClientAck(u, Some(Genuine(client, u)));
      assert AckBy(ack, id, client) && Accepts(w, a, id, ack);
      assert Legal(p, w, []) && Run(p, w, []) == w;
    }
  }

  /**
   * It happens: a stranger's ack, sent before the client's first, is recorded
   * on an open channel. It cannot close the channel with any signature there
   * is, and it locks the client out.
   */
  lemma StrangerLocksOut() returns (acts: seq<Action>, w: World)
    ensures Under(1, 1, 1, acts, w) && OpenHere(w, 1)
    ensures LockedOut(PARAMS, w, NODE, ID, CLIENT)
    ensures Entry(w, NODE, ID).lastAcked.Some? && Entry(w, NODE, ID).lastAcked.value.clientSig.Some?
    ensures forall sender, ns :: Known(w, ns) ==>
              var ack := Entry(w, NODE, ID).lastAcked.value;
              !ClosesWith(PARAMS, w, sender, ack.update, ack.clientSig.value, ns)
  {
    var u := Update(ID, 0, 0);
    var sig := Genuine(STRANGER, u);
    acts, w := OpenedWorld(1, 1, 1);
    acts, w := Extend(1, 1, 1, acts, w, SignUpdate(sig));
    acts, w := Extend(1, 1, 1, acts, w, OnNode(NODE, ReceiveAck(N.ClientAck(u, Some(sig)))));
    LockedOutIff(PARAMS, w, NODE, ID, CLIENT);
    forall sender, ns | Known(w, ns) ensures !ClosesWith(PARAMS, w, sender, u, sig, ns) {
      LastAckClosesIff(PARAMS, Deployed(1), acts, w, NODE, ID, sender);
    }
  }
}
