/** PostgresDedupStore of app/actions/send_dedup.py over a mutable intent table, and the call order
    of _send_via_gmail in app/actions/email_send.py. Each method changes the table exactly as the
    corresponding steps of the send gate do. */
module SendStore {
  import opened Tables
  import opened SendKey
  import opened SendGate

  /** What begin returns. */
  datatype Gate = Gate(decision: Decision, providerId: Option<string>)

  /** The provider's answer: none at all, or a status code with the id parsed from the body. */
  datatype Answer = NoContact | Response(code: int, id: Option<string>)

  datatype SendResult = Delivered(providerId: Option<string>, deduped: bool) | NotDelivered(retryable: bool)

  predicate Success(a: Answer) {
    a.Response? && 200 <= a.code < 300
  }

  class DedupStore {
    var intents: map<string, Intent>

    constructor ()
      ensures intents == map[]
    {
      intents := map[];
    }

    /** begin: one caller wins the insert; on a conflict the stored status decides. */
    method Begin(key: string, run: nat) returns (g: Gate)
      modifies this
      ensures intents == BeginIntents(old(intents), key, run)
      ensures g.decision == Send <==> key !in old(intents)
      ensures g.decision == Resend <==> key in old(intents) && old(intents)[key].status == Attempting
      ensures g.decision == Skip <==> key in old(intents) && old(intents)[key].status == Sent
      ensures g.decision.Skip? <==> BeginPhase(old(intents), key).Deduped?
      ensures g.decision.Skip? ==> BeginPhase(old(intents), key) == Deduped(g.providerId)
      ensures !g.decision.Skip? ==> g.providerId.None?
    {
      if key !in intents {
        intents := intents[key := Intent(run, Attempting, None)];
        return Gate(Send, None);
      }
      var decision := DecideSend(Some(intents[key].status));
      return Gate(decision, if decision.Skip? then intents[key].providerId else None);
    }

    /** mark_sent */
    method MarkSent(key: string, providerId: Option<string>)
      modifies this
      ensures intents == MarkIntents(old(intents), key, providerId)
      ensures intents.Keys == old(intents).Keys && forall k :: k in intents && k != key ==> intents[k] == old(intents)[k]
      ensures key in intents ==> intents[key] == Intent(old(intents)[key].run, Sent, providerId)
    {
      if key in intents {
        intents := intents[key := intents[key].(status := Sent, providerId := providerId)];
      }
    }

    /** _send_via_gmail from the gate on, with the answer the provider would give. It calls the
        provider exactly when the key is not marked sent; a confirmed send is marked before it is
        reported; any other answer leaves the intent 'attempting', so a replay calls again. */
    method SendViaGmail(action: string, run: nat, answer: Answer) returns (r: SendResult, called: bool)
      modifies this
      ensures called <==> StatusOf(old(intents), Key(action, run)) != Some(Sent)
      ensures !called ==> intents == old(intents) && r == Delivered(old(intents)[Key(action, run)].providerId, true)
      ensures called && Success(answer) ==>
        r == Delivered(answer.id, false)
        && intents == MarkIntents(BeginIntents(old(intents), Key(action, run), run), Key(action, run), answer.id)
        && StatusOf(intents, Key(action, run)) == Some(Sent) && intents[Key(action, run)].providerId == answer.id
      ensures called && !Success(answer) ==>
        r == NotDelivered(answer.NoContact? || answer.code == 429 || answer.code >= 500)
        && intents == BeginIntents(old(intents), Key(action, run), run)
        && StatusOf(intents, Key(action, run)) == Some(Attempting)
    {
      var key := Key(action, run);
      var gate := Begin(key, run);
      if gate.decision.Skip? {
        return Delivered(gate.providerId, true), false;
      }
      called := true;
      if answer.NoContact? {
        return NotDelivered(true), called;
      }
      if answer.code == 401 || answer.code == 403 {
        return NotDelivered(false), called;
      }
      if answer.code == 429 || answer.code >= 500 {
        return NotDelivered(true), called;
      }
      if !(200 <= answer.code < 300) {
        return NotDelivered(false), called;
      }
      MarkSent(key, answer.id);
      r := Delivered(answer.id, false);
    }
  }
}
