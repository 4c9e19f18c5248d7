/** Every Responses object can be streamed: the plainest delivery of one, and that it is a delivery. */
module BedrockDelivery {
  import opened Js
  import opened ChatFrames
  import opened BedrockStream
  import opened BedrockCollapsed
  import opened BedrockWire
  import opened BedrockObject
  import opened BedrockAgreement

  // ---------------------------------------------------------------- its events

  function TextEvent(text: string): Json {
    Obj(map["type" := Str("response.output_text.delta"), "delta" := Str(text)])
  }

  /** An item announced at its place, without an id of its own. */
  function AddedItem(item: Json): Json {
    Obj(map["type" := Str("function_call"), "call_id" := FirstPresent([Get(item, "call_id"), Get(item, "id"), Str("")]),
            "name" := FirstPresent([Get(item, "name"), Str("")])])
  }

  function AddedEvent(item: Json, place: nat): Json {
    Obj(map["type" := Str("response.output_item.added"), "output_index" := Num(place as real), "item" := AddedItem(item)])
  }

  function DoneItem(item: Json): Json {
    Obj(map["type" := Str("function_call"), "arguments" := Str(StringOrEmpty(Get(item, "arguments")))])
  }

  function DoneEvent(item: Json, place: nat): Json {
    Obj(map["type" := Str("response.output_item.done"), "output_index" := Num(place as real), "item" := DoneItem(item)])
  }

  function EndEvent(response: Json): Json {
    Obj(map["type" := Str(if Get(response, "status") == Str("incomplete") then "response.incomplete" else "response.completed"),
            "response" := response])
  }

  /** The text, and then each call announced, under its place. */
  function Announcements(text: string, items: seq<Json>): (frames: seq<Json>)
    ensures |frames| == 1 + |items|
  {
    if items == [] then [TextEvent(text)]
    else
      var n := |items| - 1;
      Announcements(text, items[..n]) + [AddedEvent(items[n], n)]
  }

  /** Each call's arguments, whole, in its done event. */
  function Completions(items: seq<Json>, k: nat): (frames: seq<Json>)
    requires k <= |items|
    ensures |frames| == k
    ensures forall j :: 0 <= j < k ==> frames[j] == DoneEvent(items[j], j)
  {
    if k == 0 then [] else Completions(items, k - 1) + [DoneEvent(items[k - 1], k - 1)]
  }

  function Plainest(response: Json): seq<Json> {
    var text, items := TextIn(response), ToolItems(Items(response));
    Announcements(text, items) + (Completions(items, |items|) + [EndEvent(response)])
  }

  /** Places as identities. */
  function Places(n: nat): (keys: seq<Json>)
    ensures |keys| == n && forall k :: 0 <= k < n ==> keys[k] == Num(k as real)
  {
    if n == 0 then [] else Places(n - 1) + [Num((n - 1) as real)]
  }

  lemma {:induction false} PlaceIs(n: nat, k: nat)
    requires k < n
    ensures At(Places(n), Num(k as real)) == Some(k)
  {
    var i := Position(Places(n), Num(k as real));
    assert Places(n)[k] == Num(k as real);
    assert Places(n)[i] == Num(i as real);
  }

  // ---------------------------------------------------------------- what they say, one by one

  lemma {:induction false} TextEventSays(keys: seq<Json>, text: string)
    ensures var e := TextEvent(text);
            Said(e) == text && !Announces(e) && !Ends(e) && Target(keys, e).None?
  {
  }

  lemma {:induction false} AddedItemSays(js: Builtins, item: Json)
    ensures var added := AddedItem(item);
            Is(added, "function_call") && Get(added, "id") == Undefined && HeadOf(js, added) == HeadOf(js, item)
  {
    var added := AddedItem(item);
    var id, name := FirstPresent([Get(item, "call_id"), Get(item, "id"), Str("")]), FirstPresent([Get(item, "name"), Str("")]);
    assert Get(added, "call_id") == id && Get(added, "name") == name;
    FirstOfThree(Get(item, "call_id"), Get(item, "id"), Str(""));
    FirstOfTwo(Get(item, "name"), Str(""));
    FirstOfThree(id, Get(added, "id"), Str(""));
    FirstOfTwo(name, Str(""));
  }

  lemma {:induction false} AddedEventSays(js: Builtins, keys: seq<Json>, item: Json, place: nat)
    ensures var e := AddedEvent(item, place);
            Announces(e) && Identity(e) == Num(place as real) && HeadOf(js, Get(e, "item")) == HeadOf(js, item) &&
            Said(e) == "" && !Ends(e) && Target(keys, e).None?
  {
    var e := AddedEvent(item, place);
    AddedItemSays(js, item);
    assert Get(e, "item") == AddedItem(item) && Get(e, "output_index") == Num(place as real);
    FirstOfTwo(Undefined, Get(e, "output_index"));
  }

  lemma {:induction false} DoneEventSays(keys: seq<Json>, item: Json, place: nat)
    ensures var e := DoneEvent(item, place);
            ItemIsDone(e) && Identity(e) == Num(place as real) && WholeOf(e) == StringOrEmpty(Get(item, "arguments")) &&
            Said(e) == "" && !Ends(e) && !Announces(e) && !IsFragment(e) && Target(keys, e) == At(keys, Num(place as real))
  {
    var e := DoneEvent(item, place);
    assert Get(e, "item") == DoneItem(item) && Get(e, "output_index") == Num(place as real);
    FirstOfTwo(Undefined, Get(e, "output_index"));
  }

  lemma {:induction false} EndEventSays(keys: seq<Json>, response: Json)
    requires !Nullish(response)
    ensures var e := EndEvent(response);
            Is(e, if Get(response, "status") == Str("incomplete") then "response.incomplete" else "response.completed") &&
            Completes(e) && ResponseIn(e) == response && Said(e) == "" && !Announces(e) && Target(keys, e).None?
  {
    FirstOfTwo(response, Obj(map[]));
  }

  // ---------------------------------------------------------------- all of them

  /** The text said and the items announced so far. */
  ghost predicate Tell(js: Builtins, text: string, items: seq<Json>, frames: seq<Json>) {
    AllSaid(frames) == text && Keys(frames) == Places(|items|) && |Starts(js, frames)| == |items| &&
    forall i :: 0 <= i < |items| ==> Starts(js, frames)[i] == HeadOf(js, items[i])
  }

  /** About no call, and no ending. */
  ghost predicate Apart(keys: seq<Json>, frames: seq<Json>) {
    forall j :: 0 <= j < |frames| ==> Target(keys, frames[j]).None? && !Ends(frames[j])
  }

  lemma {:induction false} TellOne(js: Builtins, text: string, e: Json)
    requires Said(e) == text && !Announces(e)
    ensures Tell(js, text, [], [e])
  {
    ConcatNothing([e]);
    SaidSnoc([], e);
    KeysSnoc([], e);
    StartsSnoc(js, [], e);
    ConcatNothing(text);
  }

  lemma {:induction false} TellMore(js: Builtins, text: string, items: seq<Json>, frames: seq<Json>, item: Json, e: Json)
    requires Tell(js, text, items, frames) && Said(e) == "" && Announces(e)
    requires Identity(e) == Num(|items| as real) && HeadOf(js, Get(e, "item")) == HeadOf(js, item)
    ensures Tell(js, text, items + [item], frames + [e])
  {
    SaidSnoc(frames, e);
    KeysSnoc(frames, e);
    StartsSnoc(js, frames, e);
    ConcatNothing(text);
  }

  lemma {:induction false} AnnouncementsSay(js: Builtins, text: string, items: seq<Json>, keys: seq<Json>)
    ensures Tell(js, text, items, Announcements(text, items)) && Apart(keys, Announcements(text, items))
  {
    if items == [] {
      TextEventSays(keys, text);
      TellOne(js, text, TextEvent(text));
    } else {
      var front, last := items[..|items| - 1], items[|items| - 1];
      AnnouncementsSay(js, text, front, keys);
      AnnounceOne(js, text, front, last, Announcements(text, front), keys);
      AnnouncementsSnoc(text, front, last, items);
    }
  }

  lemma {:induction false} AnnouncementsSnoc(text: string, front: seq<Json>, last: Json, items: seq<Json>)
    requires items != [] && front == items[..|items| - 1] && last == items[|items| - 1]
    ensures items == front + [last]
    ensures Announcements(text, items) == Announcements(text, front) + [AddedEvent(last, |front|)]
  {
  }

  lemma {:induction false} AnnounceOne(js: Builtins, text: string, items: seq<Json>, item: Json, frames: seq<Json>,
      keys: seq<Json>)
    requires Tell(js, text, items, frames) && Apart(keys, frames)
    ensures var more := frames + [AddedEvent(item, |items|)];
            Tell(js, text, items + [item], more) && Apart(keys, more)
  {
    AddedEventSays(js, keys, item, |items|);
    TellMore(js, text, items, frames, item, AddedEvent(item, |items|));
  }

  /** Events that neither say nor announce anything. */
  ghost predicate Mute(frames: seq<Json>) {
    forall j :: 0 <= j < |frames| ==> Said(frames[j]) == "" && !Announces(frames[j])
  }

  lemma {:induction false} MuteAdds(js: Builtins, front: seq<Json>, frames: seq<Json>)
    requires Mute(frames)
    ensures AllSaid(front + frames) == AllSaid(front) && Keys(front + frames) == Keys(front)
    ensures Starts(js, front + frames) == Starts(js, front)
    decreases |frames|
  {
    if frames == [] {
      ConcatNothing(front);
    } else {
      var most, last := frames[..|frames| - 1], frames[|frames| - 1];
      MuteAdds(js, front, most);
      assert frames == most + [last];
      Assoc(front, most, [last]);
      MuteAdd(js, front + most, last);
    }
  }

  lemma {:induction false} MuteAdd(js: Builtins, front: seq<Json>, e: Json)
    requires Said(e) == "" && !Announces(e)
    ensures AllSaid(front + [e]) == AllSaid(front) && Keys(front + [e]) == Keys(front)
    ensures Starts(js, front + [e]) == Starts(js, front)
  {
    SaidSnoc(front, e);
    KeysSnoc(front, e);
    StartsSnoc(js, front, e);
    ConcatNothing(AllSaid(front));
    ConcatNothing(Keys(front));
  }

  /** Once all are announced any event is in order. */
  lemma {:induction false} AllKnown(keys: seq<Json>, known: nat, frames: seq<Json>)
    requires |keys| <= known
    ensures InOrder(keys, known, frames)
    decreases |frames|
  {
    if frames != [] { AllKnown(keys, if Announces(frames[0]) then known + 1 else known, frames[1..]); }
  }

  lemma {:induction false} KeysCons(e: Json, frames: seq<Json>)
    ensures |Keys([e] + frames)| == (if Announces(e) then 1 else 0) + |Keys(frames)|
    decreases |frames|
  {
    if frames == [] {
      ConcatNothing([e]);
      KeysSnoc([], e);
    } else {
      var front, last := frames[..|frames| - 1], frames[|frames| - 1];
      KeysCons(e, front);
      KeysSnoc([e] + front, last);
      assert [e] + frames == [e] + front + [last];
    }
  }

  /** Events about no call, and after them all are announced. */
  lemma {:induction false} QuietFirst(keys: seq<Json>, known: nat, front: seq<Json>, rest: seq<Json>)
    requires forall j :: 0 <= j < |front| ==> Target(keys, front[j]).None?
    requires |keys| <= known + |Keys(front)|
    ensures InOrder(keys, known, front + rest)
    decreases |front|
  {
    if front == [] {
      ConcatNothing(rest);
      AllKnown(keys, known, rest);
    } else {
      var e, later := front[0], front[1..];
      TailAppend(front, rest);
      KeysCons(e, later);
      assert front == [e] + later;
      QuietFirst(keys, if Announces(e) then known + 1 else known, later, rest);
    }
  }

  /** One event is about the call, and carries all of its arguments. */
  lemma {:induction false} SpeltOnce(keys: seq<Json>, i: nat, whole: string, frames: seq<Json>, p: nat)
    requires p < |frames| && Target(keys, frames[p]) == Some(i) && !IsFragment(frames[p]) && WholeOf(frames[p]) == whole
    requires forall q :: 0 <= q < |frames| && q != p ==> Target(keys, frames[q]) != Some(i)
    ensures Spells(keys, i, "", whole, frames)
    decreases p
  {
    if p > 0 {
      assert forall q :: 0 <= q < |frames[1..]| ==> frames[1..][q] == frames[q + 1];
      SpeltOnce(keys, i, whole, frames[1..], p - 1);
    }
  }

  /** Each call's arguments in full, one event after another, and then the ending. */
  ghost predicate Fills(items: seq<Json>, keys: seq<Json>, tail: seq<Json>) {
    |tail| == |items| + 1 && Target(keys, tail[|items|]).None? &&
    forall j :: 0 <= j < |items| ==>
      Target(keys, tail[j]) == Some(j) && !IsFragment(tail[j]) && !Ends(tail[j]) &&
      WholeOf(tail[j]) == StringOrEmpty(Get(items[j], "arguments"))
  }

  /** What comes after the announcements. */
  lemma {:induction false} CompletionsSay(items: seq<Json>, response: Json, keys: seq<Json>, tail: seq<Json>)
    requires !Nullish(response) && keys == Places(|items|) && tail == Completions(items, |items|) + [EndEvent(response)]
    ensures Mute(tail) && Fills(items, keys, tail)
  {
    EndEventSays(keys, response);
    forall j | 0 <= j < |items|
      ensures Target(keys, tail[j]) == Some(j) && !IsFragment(tail[j]) && !Ends(tail[j]) && Said(tail[j]) == ""
      ensures WholeOf(tail[j]) == StringOrEmpty(Get(items[j], "arguments")) && !Announces(tail[j])
    {
      assert tail[j] == DoneEvent(items[j], j);
      DoneEventSays(keys, items[j], j);
      PlaceIs(|items|, j);
    }
  }

  lemma {:induction false} SpeltInTail(keys: seq<Json>, front: seq<Json>, tail: seq<Json>, i: nat, whole: string)
    requires forall j :: 0 <= j < |front| ==> Target(keys, front[j]).None?
    requires i < |tail| && Target(keys, tail[i]) == Some(i) && !IsFragment(tail[i]) && WholeOf(tail[i]) == whole
    requires forall j :: 0 <= j < |tail| && j != i ==> Target(keys, tail[j]) != Some(i)
    ensures Spells(keys, i, "", whole, front + tail)
  {
    var all := front + tail;
    assert forall q :: 0 <= q < |all| ==> all[q] == if q < |front| then front[q] else tail[q - |front|];
    SpeltOnce(keys, i, whole, all, |front| + i);
  }

  lemma {:induction false} DeliversPlainly(js: Builtins, response: Json, items: seq<Json>, frames: seq<Json>)
    requires items == ToolItems(Items(response)) && EndsWith(frames, response)
    requires Tell(js, TextIn(response), items, frames) && InOrder(Places(|items|), 0, frames)
    requires forall i :: 0 <= i < |items| ==>
      Spells(Places(|items|), i, "", StringOrEmpty(Get(items[i], "arguments")), frames)
    ensures Delivers(js, frames, response)
  {
  }

  /** The hypothesis of the agreement is met by some events, as JSON, for every Responses object. */
  lemma {:induction false} EveryResponseIsDelivered(js: Builtins, response: Json)
    requires !Nullish(response)
    ensures Delivers(js, Plainest(response), response)
  {
    var text, items := TextIn(response), ToolItems(Items(response));
    PlainlyTold(js, response, text, items, Places(|items|), Announcements(text, items),
                Completions(items, |items|) + [EndEvent(response)]);
  }

  lemma {:induction false} PlainlyTold(js: Builtins, response: Json, text: string, items: seq<Json>, keys: seq<Json>,
      front: seq<Json>, tail: seq<Json>)
    requires !Nullish(response) && text == TextIn(response) && items == ToolItems(Items(response))
    requires keys == Places(|items|) && front == Announcements(text, items)
    requires tail == Completions(items, |items|) + [EndEvent(response)]
    ensures Delivers(js, front + tail, response)
  {
    AnnouncementsSay(js, text, items, keys);
    CompletionsSay(items, response, keys, tail);
    MuteAdds(js, front, tail);
    QuietFirst(keys, 0, front, tail);
    EndsLast(front, tail, items, response);
    SpeltAll(items, keys, front, tail);
    DeliversPlainly(js, response, items, front + tail);
  }

  lemma {:induction false} SpeltAll(items: seq<Json>, keys: seq<Json>, front: seq<Json>, tail: seq<Json>)
    requires Apart(keys, front) && Fills(items, keys, tail)
    ensures forall i :: 0 <= i < |items| ==>
      Spells(keys, i, "", StringOrEmpty(Get(items[i], "arguments")), front + tail)
  {
    forall i | 0 <= i < |items|
      ensures Spells(keys, i, "", StringOrEmpty(Get(items[i], "arguments")), front + tail)
    {
      SpeltHere(items, keys, front, tail, i);
    }
  }

  lemma {:induction false} SpeltHere(items: seq<Json>, keys: seq<Json>, front: seq<Json>, tail: seq<Json>, i: nat)
    requires Apart(keys, front) && Fills(items, keys, tail) && i < |items|
    ensures Spells(keys, i, "", StringOrEmpty(Get(items[i], "arguments")), front + tail)
  {
    var n := |items|;
    forall j | 0 <= j < |tail| && j != i ensures Target(keys, tail[j]) != Some(i) {
      assert j < n ==> Target(keys, tail[j]) == Some(j);
    }
    SpeltInTail(keys, front, tail, i, StringOrEmpty(Get(items[i], "arguments")));
  }

  lemma {:induction false} EndsLast(front: seq<Json>, tail: seq<Json>, items: seq<Json>, response: Json)
    requires !Nullish(response) && |tail| == |items| + 1 && tail[|items|] == EndEvent(response)
    requires forall j :: 0 <= j < |front| ==> !Ends(front[j])
    requires forall j :: 0 <= j < |items| ==> !Ends(tail[j])
    ensures EndsWith(front + tail, response)
  {
    EndEventSays([], response);
    var all := front + tail;
    assert forall q :: 0 <= q < |all| ==> all[q] == if q < |front| then front[q] else tail[q - |front|];
  }
}
