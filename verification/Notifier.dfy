/** The event notifier: audit events go out in order from a cursor that is persisted after each of them. */
module Notifier {
  import opened Types

  /** Events are ordered by creation time and then by identity. */
  datatype Key = Key(at: nat, id: nat)

  datatype Event = Event(key: Key, notifiable: bool)

  predicate Before(a: Key, b: Key) { a.at < b.at || (a.at == b.at && a.id < b.id) }

  const PAGE := 100

  ghost predicate Ordered(events: seq<Event>) {
    forall i, k :: 0 <= i < k < |events| ==> Before(events[i].key, events[k].key)
  }

  /** The events after the cursor, oldest first; without a cursor all of them. */
  function ListAfter(events: seq<Event>, cursor: Option<Key>): seq<Event> {
    if events == [] then []
    else if cursor.None? || Before(cursor.value, events[0].key) then [events[0]] + ListAfter(events[1..], cursor)
    else ListAfter(events[1..], cursor)
  }

  function FirstPage(events: seq<Event>): seq<Event> {
    if |events| > PAGE then events[..PAGE] else events
  }

  function Notifiable(events: seq<Event>): seq<Event> {
    if events == [] then []
    else Notifiable(events[..|events| - 1]) + if events[|events| - 1].notifiable then [events[|events| - 1]] else []
  }

  /** The stored cursor and the messages that have left. */
  class TelegramEventNotifier {
    var cursor: Option<Key>
    var messages: seq<Event>

    constructor ()
      ensures cursor == None && messages == []
    {
      cursor, messages := None, [];
    }

    /**
     One polling round over the audit log. `steps` counts the single effects -- sends and cursor
     writes -- after which the process crashes, if it does.
     */
    method RunOnce(events: seq<Event>, steps: nat) returns (sent: nat)
      modifies this
      ensures Snapshot(cursor, messages) == Round(Snapshot(old(cursor), old(messages)), events, steps)
      ensures sent == |messages| - |old(messages)|
    {
      sent := 0;
      if cursor == None && events != [] {
        if steps > 0 {
          cursor := Some(events[|events| - 1].key);
        }
        return;
      }
      var page := FirstPage(ListAfter(events, cursor));
      var i, left := 0, steps;
      while i < |page| && left > 0
        invariant 0 <= i <= |page|
        invariant Work(Snapshot(cursor, messages), page[i..], left)
               == Work(Snapshot(old(cursor), old(messages)), page, steps)
        invariant sent == |messages| - |old(messages)|
      {
        var event := page[i];
        assert page[i..][0] == event && page[i..][1..] == page[i + 1..];
        if event.notifiable {
          messages := messages + [event];
          sent := sent + 1;
          left := left - 1;
        }
        if left > 0 {
          cursor := Some(event.key);
          left := left - 1;
          i := i + 1;
        }
      }
    }
  }

  datatype Snapshot = Snapshot(cursor: Option<Key>, messages: seq<Event>)

  /** The effects of going through a page until the crash. */
  function Work(s: Snapshot, page: seq<Event>, steps: nat): Snapshot
    decreases |page|
  {
    if page == [] || steps == 0 then s
    else
      var sent := if page[0].notifiable then s.(messages := s.messages + [page[0]]) else s;
      var left := if page[0].notifiable then steps - 1 else steps;
      if left == 0 then sent else Work(sent.(cursor := Some(page[0].key)), page[1..], left - 1)
  }

  function Round(s: Snapshot, events: seq<Event>, steps: nat): Snapshot {
    if s.cursor == None && events != [] then
      if steps > 0 then s.(cursor := Some(events[|events| - 1].key)) else s
    else Work(s, FirstPage(ListAfter(events, s.cursor)), steps)
  }

  // ---- Rounds and crashes over a growing log ----

  /** The log as it is read in each round, and how far the round comes. */
  datatype Visit = Visit(events: seq<Event>, steps: nat)

  function Rounds(s: Snapshot, visits: seq<Visit>): Snapshot {
    if visits == [] then s
    else
      var last := visits[|visits| - 1];
      Round(Rounds(s, visits[..|visits| - 1]), last.events, last.steps)
  }

  /** A log that only grows at its end, in key order. */
  ghost predicate Growing(visits: seq<Visit>) {
    && (forall i :: 0 <= i < |visits| ==> Ordered(visits[i].events))
    && (forall i, k :: 0 <= i <= k < |visits| ==> visits[i].events <= visits[k].events)
  }

  /** Messages without immediate repetitions. */
  function Collapsed(messages: seq<Event>): seq<Event> {
    if |messages| <= 1 then messages
    else
      var front := Collapsed(messages[..|messages| - 1]);
      var last := messages[|messages| - 1];
      if messages[|messages| - 2] == last then front else front + [last]
  }

  lemma {:induction false} CollapsedEnds(messages: seq<Event>)
    requires messages != []
    ensures Collapsed(messages) != [] && Collapsed(messages)[|Collapsed(messages)| - 1] == messages[|messages| - 1]
  {
    if |messages| > 1 {
      CollapsedEnds(messages[..|messages| - 1]);
    }
  }

  lemma CollapsedMore(messages: seq<Event>, e: Event)
    ensures Collapsed(messages + [e]) ==
            if Collapsed(messages) != [] && Collapsed(messages)[|Collapsed(messages)| - 1] == e then Collapsed(messages)
            else Collapsed(messages) + [e]
  {
    var all := messages + [e];
    if messages != [] {
      CollapsedEnds(messages);
      assert all[..|all| - 1] == messages;
    }
  }

  /**
   Everything notifiable from `start` up to the cursor has left, in order and without a gap; the
   event in flight may have left as well, once or again after every crash.
   */
  ghost predicate Delivered(s: Snapshot, events: seq<Event>, start: nat, done: nat) {
    && 1 <= start <= done <= |events|
    && s.cursor == Some(events[done - 1].key)
    && (Collapsed(s.messages) == Notifiable(events[start..done])
        || (done < |events| && events[done].notifiable && Collapsed(s.messages) == Notifiable(events[start..done]) + [events[done]]))
  }

  lemma {:induction false} ListAfterIsSuffix(events: seq<Event>, c: Key, d: nat)
    requires d <= |events|
    requires forall i :: 0 <= i < |events| ==> (Before(c, events[i].key) <==> d <= i)
    ensures ListAfter(events, Some(c)) == events[d..]
  {
    if events != [] {
      var rest := events[1..];
      forall i | 0 <= i < |rest| ensures Before(c, rest[i].key) <==> (if d > 0 then d - 1 else 0) <= i {
        assert rest[i] == events[i + 1];
      }
      ListAfterIsSuffix(rest, c, if d > 0 then d - 1 else 0);
    }
  }

  lemma AfterCursor(s: Snapshot, events: seq<Event>, start: nat, done: nat)
    requires Ordered(events) && Delivered(s, events, start, done)
    ensures ListAfter(events, s.cursor) == events[done..]
  {
    forall i | 0 <= i < |events| ensures Before(events[done - 1].key, events[i].key) <==> done <= i {
      if i < done - 1 {
        assert Before(events[i].key, events[done - 1].key);
      }
    }
    ListAfterIsSuffix(events, events[done - 1].key, done);
  }

  lemma {:induction false} NotifiableIn(events: seq<Event>, e: Event)
    requires e in Notifiable(events)
    ensures e in events
  {
    if events != [] && e in Notifiable(events[..|events| - 1]) {
      NotifiableIn(events[..|events| - 1], e);
    }
  }

  /** Sending the event in flight, for the first time or again. */
  lemma SendDelivers(s: Snapshot, events: seq<Event>, start: nat, done: nat)
    requires Ordered(events) && Delivered(s, events, start, done) && done < |events| && events[done].notifiable
    ensures Collapsed(s.messages + [events[done]]) == Notifiable(events[start..done]) + [events[done]]
  {
    var e, past := events[done], Notifiable(events[start..done]);
    CollapsedMore(s.messages, e);
    assert past != [] ==> past[|past| - 1] in past;
    forall i | start <= i < done ensures events[i] != e {
      assert Before(events[i].key, e.key);
    }
    if e in past {
      NotifiableIn(events[start..done], e);
    }
  }

  lemma NotifiableMore(events: seq<Event>, start: nat, done: nat)
    requires start <= done < |events|
    ensures Notifiable(events[start..done + 1])
            == Notifiable(events[start..done]) + if events[done].notifiable then [events[done]] else []
  {
    var longer := events[start..done + 1];
    assert longer[..|longer| - 1] == events[start..done] && longer[|longer| - 1] == events[done];
  }

  /** Going through a page keeps the promise at every point at which the process may crash. */
  lemma {:induction false} WorkDelivers(s: Snapshot, page: seq<Event>, steps: nat, events: seq<Event>, start: nat, done: nat)
    returns (reached: nat)
    requires Ordered(events) && Delivered(s, events, start, done) && page <= events[done..]
    ensures done <= reached && Delivered(Work(s, page, steps), events, start, reached)
    ensures steps >= 2 * |page| ==> reached == done + |page|
                                    && (page != [] ==> Collapsed(Work(s, page, steps).messages) == Notifiable(events[start..reached]))
    decreases |page|
  {
    hide Collapsed, Notifiable;
    reached := done;
    if page != [] && steps > 0 {
      assert page[0] == events[done];
      var sent := if page[0].notifiable then s.(messages := s.messages + [page[0]]) else s;
      var left := if page[0].notifiable then steps - 1 else steps;
      var moved := sent.(cursor := Some(page[0].key));
      OneDelivers(s, events, start, done);
      if left > 0 {
        assert page[1..] <= events[done + 1..];
        reached := WorkDelivers(moved, page[1..], left - 1, events, start, done + 1);
      }
    }
  }

  /** One event: sent, and then passed by the cursor. */
  lemma OneDelivers(s: Snapshot, events: seq<Event>, start: nat, done: nat)
    requires Ordered(events) && Delivered(s, events, start, done) && done < |events|
    ensures var e := events[done];
            var sent := if e.notifiable then s.(messages := s.messages + [e]) else s;
            && Delivered(sent, events, start, done)
            && Delivered(sent.(cursor := Some(e.key)), events, start, done + 1)
            && Collapsed(sent.messages) == Notifiable(events[start..done + 1])
  {
    NotifiableMore(events, start, done);
    if events[done].notifiable {
      SendDelivers(s, events, start, done);
    }
  }

  lemma LongerLog(s: Snapshot, events: seq<Event>, more: seq<Event>, start: nat, done: nat)
    requires Delivered(s, events, start, done) && events <= more
    ensures Delivered(s, more, start, done)
  {
    assert more[start..done] == events[start..done];
  }

  /** Before its first event the notifier has no cursor and has sent nothing. */
  predicate Untouched(s: Snapshot) { s == Snapshot(None, []) }

  /** One round over a log that contains everything delivered so far. */
  lemma RoundDelivers(s: Snapshot, events: seq<Event>, steps: nat, start: nat, done: nat) returns (reached: nat)
    requires Ordered(events) && Delivered(s, events, start, done)
    ensures done <= reached && Delivered(Round(s, events, steps), events, start, reached)
    ensures steps >= 2 * PAGE ==> reached == if |events| - done > PAGE then done + PAGE else |events|
  {
    AfterCursor(s, events, start, done);
    reached := WorkDelivers(s, FirstPage(events[done..]), steps, events, start, done);
  }

  /**
   The length of the log when the first cursor was set: the first round that reads an event and lives to
   write.
   */
  function InitialPosition(visits: seq<Visit>): Option<nat> {
    if visits == [] then None
    else
      var earlier, last := InitialPosition(visits[..|visits| - 1]), visits[|visits| - 1];
      if earlier.Some? then earlier
      else if last.steps > 0 && last.events != [] then Some(|last.events|)
      else None
  }

  /**
   After any rounds over a growing log, each of them cut short by a crash anywhere, every notifiable
   event that came after the initial cursor and up to the present one has been sent in order without
   a gap, and only the event in flight more than once; without an initial cursor nothing has happened.
   */
  lemma {:induction false} NoEventIsSkipped(visits: seq<Visit>) returns (done: nat)
    requires Growing(visits) && visits != []
    ensures var s := Rounds(Snapshot(None, []), visits);
            if InitialPosition(visits).Some? then Delivered(s, visits[|visits| - 1].events, InitialPosition(visits).value, done)
            else Untouched(s)
  {
    var front, last := visits[..|visits| - 1], visits[|visits| - 1];
    var before := Rounds(Snapshot(None, []), front);
    done := |last.events|;
    if front != [] && InitialPosition(front).Some? {
      var done' := NoEventIsSkipped(front);
      var start := InitialPosition(front).value;
      assert front[|front| - 1].events <= last.events;
      LongerLog(before, front[|front| - 1].events, last.events, start, done');
      done := RoundDelivers(before, last.events, last.steps, start, done');
    } else {
      if front != [] {
        var _ := NoEventIsSkipped(front);
      }
      if last.events != [] {
        assert last.events[done..done] == [];
      }
    }
  }
}
