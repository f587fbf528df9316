/** The chat widget (frontend/components/ai-chat.tsx): its session identity,
    the assistant-only stream reducer, optimistic submit and image messages. */
module AiChat {
  import opened JsValue
  import opened Wire

  datatype Role = User | Assistant
  datatype Kind = TextKind | ImageKind

  /** A transcript entry; the display timestamp is not modelled. */
  datatype Message = Message(id: string, role: Role, content: Value, kind: Kind)

  /** How the POST to the send endpoint ended: an ok status, another status,
      or a thrown error. */
  datatype SendOutcome = Delivered | Rejected | NetworkError

  datatype WidgetState = WidgetState(
    messages: seq<Message>,
    input: string,
    isLoading: bool,
    openTurn: Option<string>,     // lastAssistantMsgId.current
    clock: nat,                   // the next fresh message id, in place of Date.now()
    sent: seq<OutboundEvent>)     // bodies POSTed to the send endpoint, in order

  const SessionKey := "chat_session_id"
  const ImagePrompt := "I've uploaded an image. Can you help me find similar products?"

  // ---------------------------------------------------------------------------
  // Session identity over the browser's key/value store

  /** The session-id initialiser: a non-empty stored id is reused and the store
      left alone; otherwise `freshId` (the random token) is stored and used. */
  function LoadSessionId(entries: map<string, string>, freshId: string): (r: (string, map<string, string>))
    ensures SessionKey in entries && entries[SessionKey] != "" ==> r == (entries[SessionKey], entries)
    ensures !(SessionKey in entries && entries[SessionKey] != "") ==>
      r == (freshId, entries[SessionKey := freshId])
    ensures SessionKey in r.1 && r.1[SessionKey] == r.0
  {
    if SessionKey in entries && entries[SessionKey] != "" then (entries[SessionKey], entries)
    else (freshId, entries[SessionKey := freshId])
  }

  /** A second load in the same store returns the id of the first and writes
      nothing, provided the first load's token was not empty. */
  lemma SessionIdStable(entries: map<string, string>, first: string, second: string)
    requires first != ""
    ensures var (id1, after) := LoadSessionId(entries, first);
      LoadSessionId(after, second) == (id1, after)
  {
  }

  /** The browser's local storage. */
  class KeyValueStore {
    var entries: map<string, string>

    constructor (initial: map<string, string>)
      ensures entries == initial
    {
      entries := initial;
    }
  }

  /** getItem, then setItem only when nothing usable was stored. */
  method GetOrCreateSessionId(store: KeyValueStore, freshId: string) returns (id: string)
    modifies store
    ensures (id, store.entries) == LoadSessionId(old(store.entries), freshId)
  {
    var saved := if SessionKey in store.entries then Some(store.entries[SessionKey]) else None;
    if saved.Some? && saved.value != "" {
      return saved.value;
    }
    id := freshId;
    store.entries := store.entries[SessionKey := id];
  }

  // ---------------------------------------------------------------------------
  // String.prototype.trim

  /** The characters JavaScript's trim removes: WhiteSpace and LineTerminator. */
  predicate IsJsSpace(c: char)
  {
    c == ' ' || c == '\t' || c == '\n' || c == '\r' || c == '\U{000B}' || c == '\U{000C}'
    || c == '\U{00A0}' || c == '\U{1680}' || ('\U{2000}' <= c <= '\U{200A}')
    || c == '\U{2028}' || c == '\U{2029}' || c == '\U{202F}' || c == '\U{205F}'
    || c == '\U{3000}' || c == '\U{FEFF}'
  }

  /** The number of whitespace characters at the start of `s`. */
  function LeadingSpaces(s: string): (n: nat)
    ensures n <= |s|
    ensures forall k :: 0 <= k < n ==> IsJsSpace(s[k])
    ensures n < |s| ==> !IsJsSpace(s[n])
  {
    if |s| > 0 && IsJsSpace(s[0]) then 1 + LeadingSpaces(s[1..]) else 0
  }

  /** The number of whitespace characters at the end of `s`. */
  function TrailingSpaces(s: string): (n: nat)
    ensures n <= |s|
    ensures forall k :: |s| - n <= k < |s| ==> IsJsSpace(s[k])
    ensures n < |s| ==> !IsJsSpace(s[|s| - n - 1])
  {
    if |s| > 0 && IsJsSpace(s[|s| - 1]) then 1 + TrailingSpaces(s[..|s| - 1]) else 0
  }

  /** `s.trim()`: the slice of `s` left once the whitespace at both ends is
      removed; it neither starts nor ends with whitespace. */
  function Trim(s: string): (r: string)
    ensures LeadingSpaces(s) + |r| <= |s|
    ensures r == s[LeadingSpaces(s)..LeadingSpaces(s) + |r|]
    ensures forall k :: LeadingSpaces(s) + |r| <= k < |s| ==> IsJsSpace(s[k])
    ensures r != [] ==> !IsJsSpace(r[0]) && !IsJsSpace(r[|r| - 1])
  {
    var a := LeadingSpaces(s);
    var rest := s[a..];
    var b := TrailingSpaces(rest);
    TrailIsSuffix(s, a, b);
    rest[..|rest| - b]
  }

  lemma TrailIsSuffix(s: string, a: nat, b: nat)
    requires a <= |s| && b <= |s| - a
    requires forall k :: |s[a..]| - b <= k < |s[a..]| ==> IsJsSpace(s[a..][k])
    ensures forall k :: |s| - b <= k < |s| ==> IsJsSpace(s[k])
  {
    forall k | |s| - b <= k < |s|
      ensures IsJsSpace(s[k])
    {
      assert s[k] == s[a..][k - a];
    }
  }

  /** The trimmed text is empty exactly when the input is all whitespace. */
  lemma TrimEmptyIffBlank(s: string)
    ensures Trim(s) == [] <==> forall k :: 0 <= k < |s| ==> IsJsSpace(s[k])
  {
    var a := LeadingSpaces(s);
    if Trim(s) == [] {
      assert forall k :: a <= k < |s| ==> IsJsSpace(s[k]);
    } else {
      var r := Trim(s);
      assert r[0] == s[a];
      assert !IsJsSpace(s[a]);
    }
  }

  // ---------------------------------------------------------------------------
  // The widget's state transitions

  /** addMessage: append an entry with the next fresh id. */
  function AddMessage(s: WidgetState, role: Role, content: Value, kind: Kind): (r: WidgetState)
    ensures r.messages == s.messages + [Message(NatToString(s.clock), role, content, kind)]
    ensures r.clock == s.clock + 1
    ensures r.input == s.input && r.isLoading == s.isLoading && r.openTurn == s.openTurn && r.sent == s.sent
  {
    s.(messages := s.messages + [Message(NatToString(s.clock), role, content, kind)], clock := s.clock + 1)
  }

  /** The frame extends the last entry only when it is an assistant entry whose
      id is the (non-empty) open-turn id. */
  predicate ShouldAppend(msgs: seq<Message>, openTurn: Option<string>)
  {
    && |msgs| > 0
    && msgs[|msgs| - 1].role == Assistant
    && openTurn.Some? && openTurn.value != ""
    && msgs[|msgs| - 1].id == openTurn.value
  }

  /** The text/plain branch of es.onmessage. */
  function ApplyText(s: WidgetState, f: Frame): (r: WidgetState)
    ensures r.isLoading && r.input == s.input && r.sent == s.sent
    ensures ShouldAppend(s.messages, s.openTurn) ==>
      var n := |s.messages|;
      && |r.messages| == n
      && r.messages[..n - 1] == s.messages[..n - 1]
      && r.messages[n - 1] == s.messages[n - 1].(content := Plus(s.messages[n - 1].content, f.data))
      && r.openTurn == s.openTurn && r.clock == s.clock
    ensures !ShouldAppend(s.messages, s.openTurn) ==>
      && r.messages == s.messages + [Message(NatToString(s.clock), Assistant, f.data, TextKind)]
      && r.openTurn == Some(NatToString(s.clock)) && r.clock == s.clock + 1
    // a user entry at the end is never extended
    ensures |s.messages| > 0 && s.messages[|s.messages| - 1].role == User ==>
      |r.messages| == |s.messages| + 1 && r.messages[..|s.messages|] == s.messages
  {
    if ShouldAppend(s.messages, s.openTurn) then
      var last := s.messages[|s.messages| - 1];
      s.(messages := s.messages[..|s.messages| - 1] + [last.(content := Plus(last.content, f.data))], isLoading := true)
    else
      var id := NatToString(s.clock);
      s.(messages := s.messages + [Message(id, Assistant, f.data, TextKind)],
         openTurn := Some(id), isLoading := true, clock := s.clock + 1)
  }

  /** es.onmessage: text frames go to the transcript, `turn_complete` closes the
      turn and clears the loading flag; anything else, and a payload that does
      not parse, changes nothing. */
  function Receive(s: WidgetState, p: Payload): WidgetState
  {
    match p
    case Malformed => s
    case Parsed(f) =>
      var s1 := if f.mimeType == TextPlain then ApplyText(s, f) else s;
      if Truthy(f.turnComplete) then s1.(openTurn := None, isLoading := false) else s1
  }

  /** What one frame does overall: a malformed payload changes nothing; the
      input and the sent list are never touched; only text frames touch the
      transcript, which grows by at most one entry and keeps every entry but
      the last; completing the turn closes it and ends loading. */
  lemma ReceiveEffects(s: WidgetState, p: Payload)
    ensures var r := Receive(s, p);
      && (p.Malformed? ==> r == s)
      && r.input == s.input && r.sent == s.sent
      && (p.Parsed? && p.frame.mimeType != TextPlain ==> r.messages == s.messages)
      && (p.Parsed? && p.frame.mimeType == TextPlain ==> r.isLoading == !Truthy(p.frame.turnComplete))
      && (p.Parsed? && Truthy(p.frame.turnComplete) ==> r.openTurn == None && !r.isLoading)
      && |s.messages| <= |r.messages| <= |s.messages| + 1
      && (|s.messages| > 0 ==> r.messages[..|s.messages| - 1] == s.messages[..|s.messages| - 1])
  {
  }

  function ReceiveAll(s: WidgetState, ps: seq<Payload>): WidgetState
    decreases |ps|
  {
    if ps == [] then s else ReceiveAll(Receive(s, ps[0]), ps[1..])
  }

  /** handleSubmit up to the await: ignored when the trimmed input is empty or
      a reply is loading; otherwise the trimmed text is shown at once as a user
      entry, the input is cleared, loading is set and the text goes out. */
  function BeginSubmit(s: WidgetState): (r: WidgetState)
    ensures Trim(s.input) == "" || s.isLoading ==> r == s
    ensures Trim(s.input) != "" && !s.isLoading ==>
      && r.messages == s.messages + [Message(NatToString(s.clock), User, Str(Trim(s.input)), TextKind)]
      && r.input == ""
      && r.sent == s.sent + [OutboundEvent("text/plain", Trim(s.input))]
      && r.isLoading
      && r.openTurn == s.openTurn
  {
    var text := Trim(s.input);
    if text == "" || s.isLoading then s
    else
      var s1 := AddMessage(s, User, Str(text), TextKind);
      s1.(input := "", isLoading := true, sent := s1.sent + [OutboundEvent("text/plain", text)])
  }

  /** handleSubmit after the await, whenever the POST settles: a failed send
      clears the loading flag, even when streamed frames have set it since;
      a delivered one changes nothing. The user entry stays either way. */
  function SettleSend(s: WidgetState, outcome: SendOutcome): (r: WidgetState)
    ensures outcome == Delivered ==> r == s
    ensures outcome != Delivered ==> !r.isLoading && r == s.(isLoading := false)
  {
    if outcome == Delivered then s else s.(isLoading := false)
  }

  /** The whole of handleSubmit when no frame arrives while the POST is
      pending: loading stays set only when the send succeeds, and a failed
      send keeps the entry. */
  function Submit(s: WidgetState, outcome: SendOutcome): (r: WidgetState)
    ensures Trim(s.input) == "" || s.isLoading ==> r == s
    ensures Trim(s.input) != "" && !s.isLoading ==>
      && r.messages == s.messages + [Message(NatToString(s.clock), User, Str(Trim(s.input)), TextKind)]
      && r.input == ""
      && r.sent == s.sent + [OutboundEvent("text/plain", Trim(s.input))]
      && r.isLoading == (outcome == Delivered)
      && r.openTurn == s.openTurn
  {
    if Trim(s.input) == "" || s.isLoading then s else SettleSend(BeginSubmit(s), outcome)
  }


  /** handleImageUpload once the FileReader has produced `dataUrl` (None: no
      file was picked): the image entry, then the fixed user prompt. */
  function PickImage(s: WidgetState, dataUrl: Option<string>): (r: WidgetState)
    ensures dataUrl.None? ==> r == s
    ensures dataUrl.Some? ==>
      && |r.messages| == |s.messages| + 2
      && r.messages[..|s.messages|] == s.messages
      && r.messages[|s.messages|].role == User && r.messages[|s.messages|].kind == ImageKind
      && r.messages[|s.messages|].content == Str(dataUrl.value)
      && r.messages[|s.messages| + 1].role == User && r.messages[|s.messages| + 1].kind == TextKind
      && r.messages[|s.messages| + 1].content == Str(ImagePrompt)
      && r.isLoading == s.isLoading && r.openTurn == s.openTurn && r.sent == s.sent
  {
    match dataUrl
    case None => s
    case Some(url) => AddMessage(AddMessage(s, User, Str(url), ImageKind), User, Str(ImagePrompt), TextKind)
  }

  // ---------------------------------------------------------------------------
  // Properties over runs of frames

  lemma DeltaStep(s: WidgetState, p: Payload)
    requires IsTextDelta(p)
    ensures var r := Receive(s, p);
      var t := ApplyText(s, p.frame);
      r.messages == t.messages && r.openTurn == t.openTurn && r.clock == t.clock && r.isLoading
  {
  }

  /** While an assistant entry is open, text deltas are appended to it in order. */
  lemma {:induction false} OpenReplyAccumulates(s: WidgetState, ps: seq<Payload>)
    requires ShouldAppend(s.messages, s.openTurn)
    requires s.messages[|s.messages| - 1].content.Str?
    requires |ps| > 0
    requires forall i :: 0 <= i < |ps| ==> IsTextDelta(ps[i])
    ensures var n := |s.messages|;
      var last := s.messages[n - 1];
      ReceiveAll(s, ps).messages == s.messages[..n - 1] + [last.(content := Str(last.content.s + Deltas(ps)))]
    ensures ReceiveAll(s, ps).openTurn == s.openTurn
    ensures ReceiveAll(s, ps).isLoading
    decreases |ps|
  {
    var n := |s.messages|;
    var last := s.messages[n - 1];
    var d0 := ps[0].frame.data.s;
    var s1 := Receive(s, ps[0]);
    DeltaStep(s, ps[0]);
    var last1 := last.(content := Str(last.content.s + d0));
    assert s1.messages == s.messages[..n - 1] + [last1];
    assert ReceiveAll(s, ps) == ReceiveAll(s1, ps[1..]);
    assert Deltas(ps) == d0 + Deltas(ps[1..]);
    if |ps| == 1 {
      assert ps[1..] == [];
      assert Deltas(ps) == d0;
    } else {
      assert s1.messages[n - 1] == last1;
      assert s1.messages[..n - 1] == s.messages[..n - 1];
      OpenReplyAccumulates(s1, ps[1..]);
      assert (last.content.s + d0) + Deltas(ps[1..]) == last.content.s + Deltas(ps);
      assert last1.(content := Str(last.content.s + Deltas(ps))) == last.(content := Str(last.content.s + Deltas(ps)));
    }
  }

  /** With no assistant entry open, a run of text deltas adds exactly one
      assistant entry holding all of them, concatenated in delivery order. */
  lemma {:induction false} NewReplyCollectsDeltas(s: WidgetState, ps: seq<Payload>)
    requires !ShouldAppend(s.messages, s.openTurn)
    requires |ps| > 0
    requires forall i :: 0 <= i < |ps| ==> IsTextDelta(ps[i])
    ensures ReceiveAll(s, ps).messages
            == s.messages + [Message(NatToString(s.clock), Assistant, Str(Deltas(ps)), TextKind)]
    ensures ReceiveAll(s, ps).isLoading
  {
    var d0 := ps[0].frame.data.s;
    var s1 := Receive(s, ps[0]);
    DeltaStep(s, ps[0]);
    var entry := Message(NatToString(s.clock), Assistant, Str(d0), TextKind);
    assert s1.messages == s.messages + [entry];
    assert ReceiveAll(s, ps) == ReceiveAll(s1, ps[1..]);
    assert Deltas(ps) == d0 + Deltas(ps[1..]);
    if |ps| == 1 {
      assert ps[1..] == [];
      assert Deltas(ps) == d0;
    } else {
      var n := |s1.messages|;
      assert s1.messages[..n - 1] == s.messages;
      assert s1.messages[n - 1] == entry;
      assert ShouldAppend(s1.messages, s1.openTurn);
      OpenReplyAccumulates(s1, ps[1..]);
    }
  }

  const HelloDelta := Parsed(Frame(TextPlain, Undefined, Str("Hello"), Undefined, Undefined))
  const ThereDelta := Parsed(Frame(TextPlain, Undefined, Str(" there"), Undefined, Undefined))
  const TurnDone := Parsed(Frame(Undefined, Undefined, Undefined, Bool(true), Undefined))

  /** The exchange: the user sends "Hi", the assistant streams "Hello" and
      " there" and completes the turn. The transcript gains the user entry and
      one assistant entry "Hello there", and loading is off again. */
  lemma HelloThereExchange(s: WidgetState)
    requires s.input == "Hi" && !s.isLoading && s.openTurn == None
    ensures var r := ReceiveAll(Submit(s, Delivered), [HelloDelta, ThereDelta, TurnDone]);
      && r.messages == s.messages + [Message(NatToString(s.clock), User, Str("Hi"), TextKind),
                                     Message(NatToString(s.clock + 1), Assistant, Str("Hello there"), TextKind)]
      && !r.isLoading && r.openTurn == None
  {
    TrimHi();
    var a := Submit(s, Delivered);
    assert a == BeginSubmit(s);
    var deltas := [HelloDelta, ThereDelta];
    NewReplyCollectsDeltas(a, deltas);
    DeltasHelloThere();
    var b := ReceiveAll(a, deltas);
    assert [HelloDelta, ThereDelta, TurnDone] == deltas + [TurnDone];
    ReceiveAllSplits(a, deltas, [TurnDone]);
    assert [TurnDone][1..] == [];
    assert ReceiveAll(b, [TurnDone]) == Receive(b, TurnDone);
    var user := Message(NatToString(s.clock), User, Str("Hi"), TextKind);
    var reply := Message(NatToString(s.clock + 1), Assistant, Str("Hello there"), TextKind);
    assert a.messages == s.messages + [user];
    assert b.messages == a.messages + [reply];
    AppendTwo(s.messages, user, reply);
  }

  /** A send that fails after the reply has started streaming ends loading
      while the partial reply stays: "Hi" is sent, "Hello" arrives, and then
      the POST is rejected. */
  lemma LateFailureAfterFrame(s: WidgetState)
    requires s.input == "Hi" && !s.isLoading && s.openTurn == None
    ensures var streamed := Receive(BeginSubmit(s), HelloDelta);
      && streamed.isLoading
      && |streamed.messages| == |s.messages| + 2
      && streamed.messages[|s.messages| + 1].content == Str("Hello")
    ensures var r := SettleSend(Receive(BeginSubmit(s), HelloDelta), Rejected);
      && !r.isLoading
      && r.messages == Receive(BeginSubmit(s), HelloDelta).messages
  {
    TrimHi();
    var a := BeginSubmit(s);
    assert !ShouldAppend(a.messages, a.openTurn);
  }
  lemma AppendTwo<T>(xs: seq<T>, a: T, b: T)
    ensures (xs + [a]) + [b] == xs + [a, b]
  {
  }

  lemma TrimHi()
    ensures Trim("Hi") == "Hi"
  {
    assert LeadingSpaces("Hi") == 0;
    assert TrailingSpaces("Hi") == 0;
  }

  lemma DeltasHelloThere()
    ensures Deltas([HelloDelta, ThereDelta]) == "Hello there"
  {
    assert [HelloDelta, ThereDelta][1..] == [ThereDelta];
    assert [ThereDelta][1..] == [];
    assert Deltas([ThereDelta]) == " there" + Deltas([]);
    assert Deltas([HelloDelta, ThereDelta]) == "Hello" + Deltas([ThereDelta]);
  }

  lemma {:induction false} ReceiveAllSplits(s: WidgetState, xs: seq<Payload>, ys: seq<Payload>)
    ensures ReceiveAll(s, xs + ys) == ReceiveAll(ReceiveAll(s, xs), ys)
    decreases |xs|
  {
    if xs == [] {
      assert xs + ys == ys;
    } else {
      assert (xs + ys)[0] == xs[0];
      assert (xs + ys)[1..] == xs[1..] + ys;
      ReceiveAllSplits(Receive(s, xs[0]), xs[1..], ys);
    }
  }

  // ---------------------------------------------------------------------------
  // The component

  class AiChatWidget {
    var messages: seq<Message>
    var input: string
    var isLoading: bool
    var openTurn: Option<string>
    var clock: nat
    var sent: seq<OutboundEvent>
    var sessionId: string

    function State(): WidgetState
      reads this
    {
      WidgetState(messages, input, isLoading, openTurn, clock, sent)
    }

    /** Mounting: empty transcript and input, and the session id from the store. */
    constructor (store: KeyValueStore, freshId: string)
      modifies store
      ensures State() == WidgetState([], "", false, None, 0, [])
      ensures (sessionId, store.entries) == LoadSessionId(old(store.entries), freshId)
    {
      messages, input, isLoading, openTurn, clock, sent := [], "", false, None, 0, [];
      new;
      sessionId := GetOrCreateSessionId(store, freshId);
    }

    /** handleInputChange */
    method ChangeInput(value: string)
      modifies this
      ensures State() == old(State()).(input := value)
      ensures sessionId == old(sessionId)
    {
      input := value;
    }

    method Append(role: Role, content: Value, kind: Kind)
      modifies this
      ensures State() == AddMessage(old(State()), role, content, kind)
      ensures sessionId == old(sessionId)
    {
      messages := messages + [Message(NatToString(clock), role, content, kind)];
      clock := clock + 1;
    }

    /** es.onmessage */
    method OnMessage(p: Payload)
      modifies this
      ensures State() == Receive(old(State()), p)
      ensures sessionId == old(sessionId)
    {
      if p.Malformed? {
        return;
      }
      var msg := p.frame;
      if msg.mimeType == TextPlain {
        OnText(msg);
      }
      if Truthy(msg.turnComplete) {
        openTurn := None;
        isLoading := false;
      }
    }

    /** The text/plain branch of es.onmessage. */
    method OnText(msg: Frame)
      modifies this
      ensures State() == ApplyText(old(State()), msg)
      ensures sessionId == old(sessionId)
    {
      isLoading := true;
      var shouldAppend := |messages| > 0 && messages[|messages| - 1].role == Assistant
                          && openTurn.Some? && openTurn.value != ""
                          && messages[|messages| - 1].id == openTurn.value;
      if shouldAppend {
        var last := messages[|messages| - 1];
        messages := messages[..|messages| - 1] + [last.(content := Plus(last.content, msg.data))];
      } else {
        var newId := NatToString(clock);
        clock := clock + 1;
        openTurn := Some(newId);
        messages := messages + [Message(newId, Assistant, msg.data, TextKind)];
      }
    }

    /** handleSubmit up to the await; `started` tells whether the POST went out. */
    method StartSubmit() returns (started: bool)
      modifies this
      ensures State() == BeginSubmit(old(State()))
      ensures started <==> Trim(old(input)) != "" && !old(isLoading)
      ensures sessionId == old(sessionId)
    {
      var text := Trim(input);
      if text == "" || isLoading {
        return false;
      }
      Append(User, Str(text), TextKind);
      input := "";
      isLoading := true;
      sent := sent + [OutboundEvent("text/plain", text)];
      return true;
    }

    /** The rest of handleSubmit, once the POST settles; frames may have been
        handled in between. */
    method SettleSubmit(outcome: SendOutcome)
      modifies this
      ensures State() == SettleSend(old(State()), outcome)
      ensures sessionId == old(sessionId)
    {
      if outcome != Delivered {
        isLoading := false;
      }
    }

    /** handleSubmit with nothing arriving while the POST is pending. */
    method HandleSubmit(outcome: SendOutcome)
      modifies this
      ensures State() == Submit(old(State()), outcome)
      ensures sessionId == old(sessionId)
    {
      var started := StartSubmit();
      if started {
        SettleSubmit(outcome);
      }
    }

    /** handleImageUpload, after the FileReader has loaded. */
    method HandleImageUpload(dataUrl: Option<string>)
      modifies this
      ensures State() == PickImage(old(State()), dataUrl)
      ensures sessionId == old(sessionId)
    {
      if dataUrl.Some? {
        Append(User, Str(dataUrl.value), ImageKind);
        Append(User, Str(ImagePrompt), TextKind);
      }
    }
  }
}
