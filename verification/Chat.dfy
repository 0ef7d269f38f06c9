/** A chat turn about an incident: bounded context and history, streamed frames, and the
    two rows it stores. */
module Chat {
  import opened Common
  import opened Streaming
  import B = Broker
  import U = Utf8

  const CONTEXT_BYTES: nat := 4096
  const HISTORY_LIMIT: nat := 10
  const HISTORY_BYTES: nat := 8192
  const FALLBACK_REPLY: string := "(no response from model)"

  datatype Turn = Turn(role: string, content: string)

  function Bytes(turns: seq<Turn>): nat {
    if turns == [] then 0 else |turns[0].content| + Bytes(turns[1..])
  }

  /** The last n turns. */
  function Last(turns: seq<Turn>, n: nat): seq<Turn>
    requires n <= |turns|
  {
    turns[|turns| - n..]
  }

  lemma {:induction false} LongerIsHeavier(turns: seq<Turn>, m: nat, n: nat)
    requires m <= n <= |turns|
    ensures Bytes(Last(turns, m)) <= Bytes(Last(turns, n))
    decreases n - m
  {
    if m < n {
      assert Last(turns, n)[1..] == Last(turns, n - 1);
      LongerIsHeavier(turns, m, n - 1);
    }
  }

  /** The longest suffix of the last ten turns within the byte budget. */
  ghost predicate IsKept(kept: seq<Turn>, turns: seq<Turn>) {
    |kept| <= 10 && |kept| <= |turns| && kept == Last(turns, |kept|) && Bytes(kept) <= 8192 &&
    forall n :: |kept| < n <= 10 && n <= |turns| ==> Bytes(Last(turns, n)) > 8192
  }

  /** The newest turn is kept exactly when it fits the budget by itself. */
  lemma {:induction false} NewestKeptIfItFits(kept: seq<Turn>, turns: seq<Turn>)
    requires turns != [] && IsKept(kept, turns)
    ensures kept != [] <==> |turns[|turns| - 1].content| <= 8192
    ensures kept != [] ==> kept[|kept| - 1] == turns[|turns| - 1]
  {
    assert Last(turns, 1) == [turns[|turns| - 1]];
    assert Bytes([turns[|turns| - 1]][1..]) == 0;
    if kept != [] {
      LongerIsHeavier(turns, 1, |kept|);
    }
  }

  method TotalBytes(turns: seq<Turn>) returns (total: nat)
    ensures total == Bytes(turns)
  {
    total := 0;
    for i := 0 to |turns|
      invariant total + Bytes(turns[i..]) == Bytes(turns)
    {
      assert turns[i..][1..] == turns[i + 1..];
      total := total + |turns[i].content|;
    }
  }

  method KeepHistory(turns: seq<Turn>) returns (kept: seq<Turn>)
    ensures IsKept(kept, turns)
  {
    kept := turns;
    if |kept| > HISTORY_LIMIT {
      kept := kept[|kept| - HISTORY_LIMIT..];
    }
    var total := TotalBytes(kept);
    ghost var most := |kept|;
    while total > HISTORY_BYTES && |kept| > 0
      invariant |kept| <= most && kept == Last(turns, |kept|) && total == Bytes(kept)
      invariant forall n :: |kept| < n <= most ==> Bytes(Last(turns, n)) > HISTORY_BYTES
      decreases |kept|
    {
      total := total - |kept[0].content|;
      kept := kept[1..];
    }
  }

  // ---------- frames ----------

  /** The frame for each delta renders everything streamed so far. */
  ghost predicate FramesOf(frames: seq<string>, deltas: seq<string>, render: string -> string) {
    |frames| == |deltas| && forall i :: 0 <= i < |frames| ==> frames[i] == render(Concat(deltas[..i + 1]))
  }

  /** The texts behind the frames of one run are ever-growing prefixes of the whole. */
  lemma {:induction false} TextsGrow(deltas: seq<string>, i: nat, j: nat)
    requires i <= j <= |deltas|
    ensures Concat(deltas[..i]) <= Concat(deltas[..j]) <= Concat(deltas)
    ensures i < j && "" !in deltas ==> Concat(deltas[..i]) < Concat(deltas[..j])
    decreases j - i, |deltas| - j
  {
    if i < j {
      TextsGrow(deltas, i, j - 1);
      assert deltas[..j] == deltas[..j - 1] + [deltas[j - 1]];
      ConcatAppend(deltas[..j - 1], deltas[j - 1]);
    }
    ConcatPrefix(deltas, j);
  }

  lemma {:induction false} ConcatPrefix(deltas: seq<string>, j: nat)
    requires j <= |deltas|
    ensures Concat(deltas[..j]) <= Concat(deltas)
    decreases |deltas| - j
  {
    if j == |deltas| {
      assert deltas[..j] == deltas;
    } else {
      ConcatPrefix(deltas, j + 1);
      assert deltas[..j + 1] == deltas[..j] + [deltas[j]];
      ConcatAppend(deltas[..j], deltas[j]);
    }
  }

  /** Publish the accumulated text once per delta. */
  method PublishDeltas(broker: B.EventBroker, topic: string, deltas: seq<string>, render: string -> string)
    returns (frames: seq<string>, accumulated: string)
    modifies broker
    ensures FramesOf(frames, deltas, render) && accumulated == Concat(deltas)
    ensures broker.state == AfterFrames(old(broker.state), topic, frames)
  {
    frames, accumulated := [], "";
    ghost var start := broker.state;
    for i := 0 to |deltas|
      invariant |frames| == i && accumulated == Concat(deltas[..i])
      invariant forall j :: 0 <= j < i ==> frames[j] == render(Concat(deltas[..j + 1]))
      invariant broker.state == AfterFrames(start, topic, frames)
    {
      assert deltas[..i + 1] == deltas[..i] + [deltas[i]];
      ConcatAppend(deltas[..i], deltas[i]);
      accumulated := accumulated + deltas[i];
      var frame := render(accumulated);
      broker.DoPublish(topic, frame);
      assert (frames + [frame])[..i] == frames;
      frames := frames + [frame];
    }
    assert deltas[..|deltas|] == deltas;
  }

  function AfterFrames(s: B.State, topic: string, frames: seq<string>): B.State {
    if frames == [] then s
    else B.Apply(AfterFrames(s, topic, frames[..|frames| - 1]), B.Publish(topic, frames[|frames| - 1]))
  }

  /** Frames published at these positions of the topic's history, in order; anything else
      may be published around and between them. */
  ghost predicate PlacedAt(frames: seq<string>, history: seq<string>, pos: seq<nat>) {
    |pos| == |frames| &&
    (forall m :: 0 <= m < |pos| ==> pos[m] < |history| && history[pos[m]] == frames[m]) &&
    (forall m, n :: 0 <= m < n < |pos| ==> pos[m] < pos[n])
  }

  /** In any interleaving, whatever else is published on the topic, the events a subscriber
      holds from one chat run render ever longer prefixes of its streamed text: the later
      event stems from a later delta. */
  lemma {:induction false} SubscriberSeesGrowingText(
      ops: seq<B.Op>, id: nat, topic: string, frames: seq<string>, deltas: seq<string>, render: string -> string,
      pos: seq<nat>, i: nat, j: nat, m: nat, n: nat)
    requires B.CreatedFor(ops, id) == Some(topic)
    requires FramesOf(frames, deltas, render) && PlacedAt(frames, B.PublishedOn(ops, topic), pos)
    requires i < j < |B.Taken(ops, id)| && m < |pos| && n < |pos|
    requires B.Taken(ops, id)[i] == pos[m] && B.Taken(ops, id)[j] == pos[n]
    ensures var seen := B.Received(ops, id) + B.Queue(ops, id);
            |seen| == |B.Taken(ops, id)| &&
            seen[i] == render(Concat(deltas[..m + 1])) && seen[j] == render(Concat(deltas[..n + 1]))
    ensures m < n && Concat(deltas[..m + 1]) <= Concat(deltas[..n + 1]) <= Concat(deltas)
    ensures "" !in deltas ==> Concat(deltas[..m + 1]) < Concat(deltas[..n + 1])
  {
    B.HoldsWhatItTook(ops, id, topic);
    TextsGrow(deltas, m + 1, n + 1);
  }

  // ---------- one turn ----------

  /** Where the surroundings fail: the first append, the incident, the history, the last append. */
  datatype Trouble = NoTrouble | AppendUser | LoadIncident | LoadHistory | AppendReply

  function ReplyFor(c: Codec, text: string): string {
    if Trim(c, text) == "" then "(no response from model)" else text
  }

  /** The provider is asked, if the surroundings let the turn get that far. */
  predicate Asks(trouble: Trouble) {
    trouble.NoTrouble? || trouble.AppendReply?
  }

  /** The rows a turn stores: the user's message, and the reply once the whole of it is in. */
  function StoredBy(c: Codec, user: string, p: Provider, trouble: Trouble): seq<Turn> {
    if trouble.AppendUser? then []
    else if trouble.NoTrouble? && Gives(c, p) then
      [Turn("user", user), Turn("assistant", ReplyFor(c, Text(c, p)))]
    else [Turn("user", user)]
  }

  /** Run one turn.  The user's message is stored before anything else can fail; the reply is
      stored exactly when the provider gave a whole answer, verbatim unless blank.  Every
      delta is published as a frame, even of an answer that breaks off.  The request carries
      the system message, made from the truncated context, and the kept history.  `prompt`
      is the text around the context and is uninterpreted. */
  method RunChat(c: Codec, broker: B.EventBroker, topic: string, context: seq<U.Byte>, prompt: seq<U.Byte> -> string,
                 turns: seq<Turn>, user: string, p: Provider, render: string -> string, trouble: Trouble)
    returns (turns': seq<Turn>, request: Option<seq<Turn>>, frames: seq<string>, ok: bool)
    modifies broker
    ensures turns' == turns + StoredBy(c, user, p, trouble)
    ensures ok <==> trouble.NoTrouble? && Gives(c, p)
    ensures request.Some? <==> Asks(trouble)
    ensures request.Some? ==>
              request.value != [] &&
              (exists kept :: U.IsTruncation(kept, context, 4096) &&
                              request.value[0] == Turn("system", prompt(kept))) &&
              IsKept(request.value[1..], turns + [Turn("user", user)])
    ensures FramesOf(frames, if Asks(trouble) then DeltasOf(c, p) else [], render)
    ensures broker.state == AfterFrames(old(broker.state), topic, frames)
  {
    turns', request, frames, ok := turns, None, [], false;
    if trouble == AppendUser { return; }
    turns' := turns' + [Turn("user", user)];
    if trouble == LoadIncident || trouble == LoadHistory { return; }
    var kept := KeepHistory(turns');
    var clipped := U.Truncate(context, CONTEXT_BYTES);
    request := Some([Turn("system", prompt(clipped))] + kept);
    assert request.value[1..] == kept;
    var answer, deltas := StreamOrComplete(c, p, _ => false);
    var accumulated;
    frames, accumulated := PublishDeltas(broker, topic, deltas, render);
    if !answer.Answer? { return; }
    if trouble == AppendReply { return; }
    var reply := accumulated;
    if Trim(c, reply) == "" {
      reply := FALLBACK_REPLY;
    }
    turns', ok := turns' + [Turn("assistant", reply)], true;
  }
}
