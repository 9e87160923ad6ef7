/**
 * The recent-message window and the unread filter of the messages service
 * (src/app/core/messages/messages.service.js). Identifiers stand for their
 * string forms (`toString()`), which is what the filter compares.
 */
module Messages {

  datatype Message = Message(id: string, created: int, title: string, body: string)
  datatype DismissedMessage = DismissedMessage(messageId: string, userId: string)

  /** The query of getAllMessages: created no earlier than `now - timeLimit`. */
  predicate IsRecent(m: Message, now: int, timeLimit: int) {
    m.created >= now - timeLimit
  }

  /** getAllMessages over the stored messages, in store order. */
  function AllMessages(store: seq<Message>, now: int, timeLimit: int): (r: seq<Message>)
    ensures forall m :: m in r <==> m in store && IsRecent(m, now, timeLimit)
  {
    if store == [] then []
    else (if IsRecent(store[0], now, timeLimit) then [store[0]] else []) + AllMessages(store[1..], now, timeLimit)
  }

  /** getDismissedMessages: the dismissals recorded for the user. */
  function DismissedBy(dismissals: seq<DismissedMessage>, userId: string): (r: seq<DismissedMessage>)
    ensures forall d :: d in r <==> d in dismissals && d.userId == userId
  {
    if dismissals == [] then []
    else (if dismissals[0].userId == userId then [dismissals[0]] else []) + DismissedBy(dismissals[1..], userId)
  }

  /** `dismissedMessages.some(x => x.messageId === message._id)`. */
  predicate IsDismissed(m: Message, dismissed: seq<DismissedMessage>) {
    exists x :: x in dismissed && x.messageId == m.id
  }

  /** The filter of getRecentMessages: drop every dismissed message. */
  function Unread(messages: seq<Message>, dismissed: seq<DismissedMessage>): (r: seq<Message>)
    ensures |r| <= |messages|
    ensures forall m :: m in r <==> m in messages && !IsDismissed(m, dismissed)
  {
    if messages == [] then []
    else (if IsDismissed(messages[0], dismissed) then [] else [messages[0]]) + Unread(messages[1..], dismissed)
  }

  /** The filter keeps relative order: it distributes over concatenation. */
  lemma {:induction false} UnreadPreservesOrder(a: seq<Message>, b: seq<Message>, dismissed: seq<DismissedMessage>)
    ensures Unread(a + b, dismissed) == Unread(a, dismissed) + Unread(b, dismissed)
  {
    if a != [] {
      assert (a + b)[0] == a[0];
      assert (a + b)[1..] == a[1..] + b;
      UnreadPreservesOrder(a[1..], b, dismissed);
    } else {
      assert a + b == b;
    }
  }

  /** A message that is not dismissed is kept with all its occurrences. */
  lemma {:induction false} UnreadKeepsUndismissed(messages: seq<Message>, dismissed: seq<DismissedMessage>)
    requires forall m :: m in messages ==> !IsDismissed(m, dismissed)
    ensures Unread(messages, dismissed) == messages
  {
    if messages != [] {
      UnreadKeepsUndismissed(messages[1..], dismissed);
    }
  }

  /** Filtering twice is filtering once. */
  lemma {:induction false} UnreadIdempotent(messages: seq<Message>, dismissed: seq<DismissedMessage>)
    ensures Unread(Unread(messages, dismissed), dismissed) == Unread(messages, dismissed)
  {
    UnreadKeepsUndismissed(Unread(messages, dismissed), dismissed);
  }

  /**
   * getRecentMessages: the recent messages the user has not dismissed, in
   * store order.
   */
  function GetRecentMessages(store: seq<Message>, dismissals: seq<DismissedMessage>, userId: string, now: int, timeLimit: int)
    : (r: seq<Message>)
    ensures |r| <= |store|
    ensures forall m :: m in r <==>
              m in store && IsRecent(m, now, timeLimit) && !IsDismissed(m, DismissedBy(dismissals, userId))
    ensures forall m :: m in r ==> forall d :: d in dismissals && d.userId == userId ==> d.messageId != m.id
  {
    var recent := AllMessages(store, now, timeLimit);
    RecentNoLonger(store, now, timeLimit);
    Unread(recent, DismissedBy(dismissals, userId))
  }

  lemma {:induction false} RecentNoLonger(store: seq<Message>, now: int, timeLimit: int)
    ensures |AllMessages(store, now, timeLimit)| <= |store|
  {
    if store != [] {
      RecentNoLonger(store[1..], now, timeLimit);
    }
  }
}
