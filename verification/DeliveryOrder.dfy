/** The order the drains take mail up in is the comparator of the inbox listing (store/inbox.go), on the
    identities the program gives its envelopes. */
module DeliveryOrder {
  import opened Records
  import opened DeliverySpec
  import Inbox = InboxOrder

  /** The text stands for the identity: the prefix the program gives it, and for a crossing its number. */
  predicate Names(text: string, id: EnvelopeID) {
    match id
    case BandNote(n) => text == "context-" + Inbox.Decimal(n)
    case FailureNote(_) => "failed-" <= text
    case Message(_) => "msg-" <= text
    case ResumeNote(_) => "resume-" <= text
  }

  predicate SameKind(a: EnvelopeID, b: EnvelopeID) {
    (a.FailureNote? && b.FailureNote?) || (a.Message? && b.Message?) || (a.ResumeNote? && b.ResumeNote?)
  }

  /** Mail of different times or kinds, and crossings by their numbers, are ordered as the comparator
      orders their names. Two identities of one other kind are ordered by the numbers that stand for
      their random parts. */
  lemma EarlierIsLess(e: Envelope, f: Envelope, a: string, b: string)
    requires Names(a, e.id) && Names(b, f.id) && (e.createdAt == f.createdAt ==> !SameKind(e.id, f.id))
    requires e.id.BandNote? ==> e.id.sequence < 0x1_0000_0000_0000_0000
    requires f.id.BandNote? ==> f.id.sequence < 0x1_0000_0000_0000_0000
    ensures Earlier(e, f) <==> Inbox.Less(Inbox.Queued(e.createdAt, a), Inbox.Queued(f.createdAt, b))
  {
    var x, y := Inbox.Queued(e.createdAt, a), Inbox.Queued(f.createdAt, b);
    if e.createdAt == f.createdAt {
      if e.id.BandNote? && f.id.BandNote? {
        Inbox.LessMeans(x, y, e.id.sequence, f.id.sequence);
        Inbox.LessIsStrictTotal(x, x, x);
      } else {
        assert a[0] == FirstOf(e.id) && b[0] == FirstOf(f.id);
        assert Inbox.IsContext(a) ==> a[0] == 'c';
        assert Inbox.IsContext(b) ==> b[0] == 'c';
      }
    }
  }

  function FirstOf(id: EnvelopeID): char {
    match id
    case BandNote(_) => 'c'
    case FailureNote(_) => 'f'
    case Message(_) => 'm'
    case ResumeNote(_) => 'r'
  }
}
