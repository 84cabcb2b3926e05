/**
 * The invite ledger: for each voice channel, the id of the last invite
 * message posted in each alert channel, so that a resend replaces the
 * previous message instead of adding a second one.
 */
module InviteLedger {
  import opened Wrappers
  import opened Discord

  /** voice-channel id -> (alert-channel id -> message id) */
  type Ledger = map<Id, map<Id, Id>>

  /** The message recorded for the pair (voice, alert), if any. */
  function Prior(l: Ledger, voice: Id, alert: Id): (r: Option<Id>)
    ensures r.Some? <==> voice in l && alert in l[voice]
    ensures r.Some? ==> r.value == l[voice][alert]
  {
    if voice in l && alert in l[voice] then Some(l[voice][alert]) else None
  }

  /** Record `message` as the invite for (voice, alert), replacing any earlier one. */
  function RecordInvite(l: Ledger, voice: Id, alert: Id, message: Id): (r: Ledger)
    ensures Prior(r, voice, alert) == Some(message)
    ensures r.Keys == l.Keys + {voice}
    ensures r[voice].Keys == (if voice in l then l[voice].Keys else {}) + {alert}
    ensures forall a :: a in r[voice] && a != alert ==> Prior(r, voice, a) == Prior(l, voice, a)
    ensures forall v :: v in l && v != voice ==> r[v] == l[v]
  {
    var inner := if voice in l then l[voice] else map[];
    l[voice := inner[alert := message]]
  }

  /** Forget every invite recorded for `voice`. */
  function DropChannel(l: Ledger, voice: Id): (r: Ledger)
    ensures voice !in r
    ensures r.Keys == l.Keys - {voice}
    ensures forall v :: v in r ==> r[v] == l[v]
  {
    l - {voice}
  }

  /** Recording an invite and then deleting its voice channel leaves no trace of the invite. */
  lemma DropAfterRecord(l: Ledger, voice: Id, alert: Id, message: Id)
    ensures DropChannel(RecordInvite(l, voice, alert, message), voice) == DropChannel(l, voice)
  {
  }

  /**
   * Two alerts for the same pair: the second finds the first message as the
   * one to delete, and the ledger ends as if only the second had been sent.
   */
  lemma ResendReplaces(l: Ledger, voice: Id, alert: Id, m1: Id, m2: Id)
    ensures Prior(RecordInvite(l, voice, alert, m1), voice, alert) == Some(m1)
    ensures RecordInvite(RecordInvite(l, voice, alert, m1), voice, alert, m2) == RecordInvite(l, voice, alert, m2)
  {
    var inner := if voice in l then l[voice] else map[];
    assert RecordInvite(l, voice, alert, m1)[voice] == inner[alert := m1];
    assert inner[alert := m1][alert := m2] == inner[alert := m2];
  }
}
