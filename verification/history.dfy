/**
 * The `trim_messages` middleware: before each model call it shortens a long
 * conversation to its opening message plus a few recent ones, and reports the
 * change as a state update that first removes every stored message and then
 * adds back the kept ones.
 *
 * Messages are opaque: the middleware never looks inside one.
 */
module History {
  import opened Wrappers

  /** One item of the returned update: the remove-all marker or a message to add back. */
  datatype Entry<M> = RemoveAll | Keep(msg: M)

  /** How many trailing messages survive: three when the history has even length, four when odd. */
  function RecentCount(n: nat): nat {
    if n % 2 == 0 then 3 else 4
  }

  /**
   * The messages the middleware keeps, or None when it leaves the history
   * alone (three messages or fewer).
   */
  function KeptMessages<M>(messages: seq<M>): (r: Option<seq<M>>)
    ensures r.None? <==> |messages| <= 3
    ensures r.Some? ==> |r.value| == (if |messages| % 2 == 0 then 4 else 5) <= |messages|
    ensures r.Some? ==> r.value[0] == messages[0]
    ensures r.Some? ==> r.value[1..] == messages[|messages| - (|r.value| - 1)..]
  {
    if |messages| <= 3 then None
    else Some([messages[0]] + messages[|messages| - RecentCount(|messages|)..])
  }

  function AsEntries<M>(kept: seq<M>): (es: seq<Entry<M>>)
    ensures |es| == |kept|
    ensures forall i :: 0 <= i < |kept| ==> es[i] == Keep(kept[i])
  {
    if kept == [] then [] else [Keep(kept[0])] + AsEntries(kept[1..])
  }

  /** `trim_messages`: None, or the update `[RemoveMessage(REMOVE_ALL_MESSAGES), *new_messages]`. */
  function TrimMessages<M>(messages: seq<M>): (r: Option<seq<Entry<M>>>)
    ensures r.None? <==> |messages| <= 3
    ensures r.Some? ==> |r.value| == |KeptMessages(messages).value| + 1
    ensures r.Some? ==> r.value[0] == RemoveAll
    ensures r.Some? ==> forall i :: 1 <= i < |r.value| ==> r.value[i] == Keep(KeptMessages(messages).value[i - 1])
  {
    match KeptMessages(messages)
    case None => None
    case Some(kept) => Some([RemoveAll] + AsEntries(kept))
  }

  /**
   * How the conversation state absorbs an update: the remove-all marker
   * empties it, every other entry is appended.
   */
  function Apply<M>(current: seq<M>, update: seq<Entry<M>>): seq<M>
    decreases |update|
  {
    if update == [] then current
    else match update[0]
      case RemoveAll => Apply([], update[1..])
      case Keep(m) => Apply(current + [m], update[1..])
  }

  lemma {:induction false} ApplyKeeps<M>(current: seq<M>, kept: seq<M>)
    ensures Apply(current, AsEntries(kept)) == current + kept
    decreases |kept|
  {
    if kept != [] {
      assert AsEntries(kept)[1..] == AsEntries(kept[1..]);
      ApplyKeeps(current + [kept[0]], kept[1..]);
      assert current + [kept[0]] + kept[1..] == current + kept;
    }
  }

  /** Whatever the stored history was, applying the update leaves exactly the kept messages. */
  lemma TrimmedState<M>(stored: seq<M>, messages: seq<M>)
    requires |messages| > 3
    ensures Apply(stored, TrimMessages(messages).value) == KeptMessages(messages).value
  {
    var kept := KeptMessages(messages).value;
    assert TrimMessages(messages).value == [RemoveAll] + AsEntries(kept);
    assert ([RemoveAll] + AsEntries(kept))[1..] == AsEntries(kept);
    ApplyKeeps([], kept);
  }

  /** A history of four or five messages is kept whole. */
  lemma ShortHistoryKept<M>(messages: seq<M>)
    requires |messages| == 4 || |messages| == 5
    ensures KeptMessages(messages) == Some(messages)
  {
    var n := |messages|;
    assert n - RecentCount(n) == 1;
    assert [messages[0]] + messages[1..] == messages;
  }

  /** Trimming a trimmed history keeps all of it: the middleware is idempotent. */
  lemma TrimIdempotent<M>(messages: seq<M>)
    requires |messages| > 3
    ensures KeptMessages(KeptMessages(messages).value) == KeptMessages(messages)
  {
    ShortHistoryKept(KeptMessages(messages).value);
  }
}
