/** The chat context provider (frontend/context/chatContext.tsx): the transcript
    reducer fed by the server-sent event stream, with its side channels for
    product data and audio playback. */
module ChatContext {
  import opened JsValue
  import opened Wire

  /** One transcript entry. `role` and `message` hold whatever the frame
      carried; `rest` holds the optional link/audioUrl/image fields a caller of
      addMessage may supply, which extending a message carries along. */
  datatype ChatMessage = ChatMessage(id: string, role: Value, message: Value, rest: map<string, Value>)

  /** What the handler posts to the audio playback worklet's port. */
  datatype PortMessage = EndOfAudio | Pcm(bytes: seq<int>)

  /** The provider state the frame handler reads and writes. */
  datatype ChatState = ChatState(
    messages: seq<ChatMessage>,
    openTurn: Option<string>,   // lastAssistantMsgId.current
    isGenerating: bool,
    productData: Value,
    chatHeight: int,            // percentage of the screen height
    chatHeightInPx: int,
    hasPlayer: bool,            // audioPlayerNode.current is set
    posted: seq<PortMessage>,   // everything posted to the player, in order
    clock: nat)                 // the next fresh message id, in place of Date.now()

  const InitialState: ChatState := ChatState([], None, false, Arr([]), 60, 0, false, [], 0)

  /** `msg.role || "system"` */
  function SenderRole(f: Frame): Value
  {
    if Truthy(f.role) then f.role else Str("system")
  }

  /** A text frame of role `role` extends the last entry exactly when that entry
      has the same role and its id is the open-turn id. */
  predicate ExtendsLast(msgs: seq<ChatMessage>, openTurn: Option<string>, role: Value)
  {
    |msgs| > 0 && StrictEquals(msgs[|msgs| - 1].role, role) && openTurn == Some(msgs[|msgs| - 1].id)
  }

  /** `(message || "")` */
  function OrEmpty(m: Value): Value
  {
    if Truthy(m) then m else Str("")
  }

  /** The text an entry shows: its message, or "" when that is falsy. */
  function TextOf(m: Value): string
  {
    ToStr(OrEmpty(m))
  }

  /** The text/plain branch: extend the open entry or append a new one. */
  function ApplyText(s: ChatState, f: Frame): (r: ChatState)
    ensures r.isGenerating
    ensures r.productData == s.productData && r.chatHeight == s.chatHeight
    ensures r.chatHeightInPx == s.chatHeightInPx && r.hasPlayer == s.hasPlayer && r.posted == s.posted
    ensures ExtendsLast(s.messages, s.openTurn, SenderRole(f)) ==>
      var n := |s.messages|;
      && |r.messages| == n
      && r.messages[..n - 1] == s.messages[..n - 1]
      && r.messages[n - 1] == s.messages[n - 1].(message := Plus(OrEmpty(s.messages[n - 1].message), f.data))
      && r.openTurn == s.openTurn && r.clock == s.clock
    ensures !ExtendsLast(s.messages, s.openTurn, SenderRole(f)) ==>
      && r.messages == s.messages + [ChatMessage(NatToString(s.clock), SenderRole(f), f.data, map[])]
      && r.openTurn == Some(NatToString(s.clock)) && r.clock == s.clock + 1
  {
    var role := SenderRole(f);
    if ExtendsLast(s.messages, s.openTurn, role) then
      var last := s.messages[|s.messages| - 1];
      var extended := last.(message := Plus(OrEmpty(last.message), f.data));
      s.(messages := s.messages[..|s.messages| - 1] + [extended], isGenerating := true)
    else
      var id := NatToString(s.clock);
      s.(messages := s.messages + [ChatMessage(id, role, f.data, map[])],
         openTurn := Some(id), isGenerating := true, clock := s.clock + 1)
  }

  /** The bytes base64ToArray produces from the binary string atob returned:
      byte i is the code of character i, stored modulo 256 by the Uint8Array. */
  function CharCodes(binary: string): seq<int>
  {
    seq(|binary|, i requires 0 <= i < |binary| => (binary[i] as int) % 256)
  }

  /** `if (msg.mime_type === "text/plain") { ... }` */
  function TextStep(s: ChatState, f: Frame): ChatState
  {
    if f.mimeType == TextPlain then ApplyText(s, f) else s
  }

  /** `if (msg.turn_complete) { ... }`: close the turn and stop generating. */
  function TurnStep(s: ChatState, f: Frame): ChatState
  {
    if Truthy(f.turnComplete) then s.(openTurn := None, isGenerating := false) else s
  }

  /** The rest of the handler: an interrupted frame stops playback and returns;
      otherwise PCM goes to the player and product data to its slot. None of it
      touches the transcript or the turn. */
  function SideStep(s: ChatState, f: Frame, atob: string -> Option<string>): ChatState
  {
    if Truthy(f.interrupted) && s.hasPlayer then
      s.(posted := s.posted + [EndOfAudio])
    else
      var s1 :=
        if f.mimeType == AudioPcm && s.hasPlayer then
          match atob(ToStr(f.data))
          case None => s   // atob threw: the catch block only logs
          case Some(binary) => s.(posted := s.posted + [Pcm(CharCodes(binary))])
        else s;
      if f.mimeType == ApplicationJson then
        s1.(productData := f.data, chatHeight := 35, chatHeightInPx := 20)
      else s1
  }

  /** The side channels never touch the transcript or the turn. An
      interrupted frame with a player posts end-of-audio and nothing else;
      otherwise product data replaces the old and shrinks the chat, and PCM
      audio is decoded and posted when a player is present. */
  lemma SideStepEffects(s: ChatState, f: Frame, atob: string -> Option<string>)
    ensures var r := SideStep(s, f, atob);
      && r.messages == s.messages && r.openTurn == s.openTurn && r.isGenerating == s.isGenerating
      && r.clock == s.clock && r.hasPlayer == s.hasPlayer
      && (!s.hasPlayer ==> r.posted == s.posted)
      && (Truthy(f.interrupted) && s.hasPlayer ==>
            && r.posted == s.posted + [EndOfAudio]
            && r.productData == s.productData && r.chatHeight == s.chatHeight && r.chatHeightInPx == s.chatHeightInPx)
      && (f.mimeType == ApplicationJson && !(Truthy(f.interrupted) && s.hasPlayer) ==>
            r.productData == f.data && r.chatHeight == 35 && r.chatHeightInPx == 20 && r.posted == s.posted)
      && (f.mimeType != ApplicationJson ==>
            r.productData == s.productData && r.chatHeight == s.chatHeight && r.chatHeightInPx == s.chatHeightInPx)
      && (f.mimeType == AudioPcm && s.hasPlayer && !Truthy(f.interrupted) ==>
            r.posted == match atob(ToStr(f.data))
                        case None => s.posted
                        case Some(binary) => s.posted + [Pcm(CharCodes(binary))])
  {
  }

  /** The frame handler (es.onmessage): the three steps above in source order.
      `atob` is the browser's base64 decoder, None where it throws. A payload
      that does not parse changes nothing. */
  function Receive(s: ChatState, p: Payload, atob: string -> Option<string>): ChatState
  {
    match p
    case Malformed => s
    case Parsed(f) => SideStep(TurnStep(TextStep(s, f), f), f, atob)
  }

  /** What one frame does overall: a malformed payload changes nothing; the
      transcript grows by at most one entry and keeps every entry but the last;
      only text frames touch it; a text frame leaves the model generating
      unless it also completes the turn, and completing the turn closes it. */
  lemma ReceiveEffects(s: ChatState, p: Payload, atob: string -> Option<string>)
    ensures var r := Receive(s, p, atob);
      && (p.Malformed? ==> r == s)
      && r.hasPlayer == s.hasPlayer
      && |s.messages| <= |r.messages| <= |s.messages| + 1
      && (|s.messages| > 0 ==> r.messages[..|s.messages| - 1] == s.messages[..|s.messages| - 1])
      && (p.Parsed? && p.frame.mimeType != TextPlain ==> r.messages == s.messages)
      && (p.Parsed? && p.frame.mimeType == TextPlain ==> r.isGenerating == !Truthy(p.frame.turnComplete))
      && (p.Parsed? && Truthy(p.frame.turnComplete) ==> r.openTurn == None && !r.isGenerating)
  {
    if p.Parsed? {
      SideStepEffects(TurnStep(TextStep(s, p.frame), p.frame), p.frame, atob);
    }
  }

  /** The state after a run of events, delivered in order. */
  function ReceiveAll(s: ChatState, ps: seq<Payload>, atob: string -> Option<string>): ChatState
    decreases |ps|
  {
    if ps == [] then s else ReceiveAll(Receive(s, ps[0], atob), ps[1..], atob)
  }

  /** One text delta that does not complete the turn acts on the transcript
      and the turn exactly as the text branch does. */
  lemma DeltaStep(s: ChatState, p: Payload, atob: string -> Option<string>)
    requires IsTextDelta(p)
    ensures var r := Receive(s, p, atob);
      var t := ApplyText(s, p.frame);
      r.messages == t.messages && r.openTurn == t.openTurn && r.clock == t.clock && r.isGenerating
  {
    var t := ApplyText(s, p.frame);
    assert TextStep(s, p.frame) == t;
    assert TurnStep(t, p.frame) == t;
    SideStepEffects(t, p.frame, atob);
  }

  /** The last entry of `s` has role `role` and is the open turn. */
  predicate OpenFor(s: ChatState, role: string)
  {
    |s.messages| > 0 && s.messages[|s.messages| - 1].role == Str(role)
    && s.openTurn == Some(s.messages[|s.messages| - 1].id)
  }

  /** The transcript with the last entry's text replaced. */
  function WithLastText(msgs: seq<ChatMessage>, text: string): seq<ChatMessage>
    requires |msgs| > 0
  {
    msgs[..|msgs| - 1] + [msgs[|msgs| - 1].(message := Str(text))]
  }

  /** One text delta of the open entry's role appends its text to that entry. */
  lemma OpenDeltaStep(s: ChatState, p: Payload, atob: string -> Option<string>, role: string)
    requires OpenFor(s, role)
    requires IsTextDelta(p) && SenderRole(p.frame) == Str(role)
    ensures var r := Receive(s, p, atob);
      && r.messages == WithLastText(s.messages, TextOf(s.messages[|s.messages| - 1].message) + p.frame.data.s)
      && r.openTurn == s.openTurn && r.isGenerating && OpenFor(r, role)
  {
    DeltaStep(s, p, atob);
    assert ExtendsLast(s.messages, s.openTurn, SenderRole(p.frame));
  }

  /** Replacing the last text twice keeps only the second, and the entry then
      shows exactly that text. */
  lemma WithLastTextTwice(msgs: seq<ChatMessage>, a: string, b: string)
    requires |msgs| > 0
    ensures |WithLastText(msgs, a)| == |msgs|
    ensures TextOf(WithLastText(msgs, a)[|msgs| - 1].message) == a
    ensures WithLastText(WithLastText(msgs, a), b) == WithLastText(msgs, b)
  {
    var m := WithLastText(msgs, a);
    assert m[..|msgs| - 1] == msgs[..|msgs| - 1];
  }

  /** One text delta when no entry of its role is open starts a new entry. */
  lemma NewDeltaStep(s: ChatState, p: Payload, atob: string -> Option<string>, role: string)
    requires !ExtendsLast(s.messages, s.openTurn, Str(role))
    requires IsTextDelta(p) && SenderRole(p.frame) == Str(role)
    ensures var r := Receive(s, p, atob);
      && r.messages == s.messages + [ChatMessage(NatToString(s.clock), Str(role), Str(p.frame.data.s), map[])]
      && r.openTurn == Some(NatToString(s.clock))
  {
    DeltaStep(s, p, atob);
  }

  lemma ConcatAssoc(a: string, b: string, c: string)
    ensures (a + b) + c == a + (b + c)
  {
  }

  /** Text deltas of one role arriving while that role's entry is open all land
      in that entry, in order: the transcript keeps its length and the entry's
      text becomes its old text followed by every delta. */
  lemma {:induction false} OpenTurnAccumulates(s: ChatState, ps: seq<Payload>, atob: string -> Option<string>, role: string)
    requires OpenFor(s, role)
    requires |ps| > 0
    requires forall i :: 0 <= i < |ps| ==> IsTextDelta(ps[i]) && SenderRole(ps[i].frame) == Str(role)
    ensures ReceiveAll(s, ps, atob).messages
            == WithLastText(s.messages, TextOf(s.messages[|s.messages| - 1].message) + Deltas(ps))
    ensures ReceiveAll(s, ps, atob).openTurn == s.openTurn
    ensures ReceiveAll(s, ps, atob).isGenerating
    decreases |ps|
  {
    var t := TextOf(s.messages[|s.messages| - 1].message);
    var d0 := ps[0].frame.data.s;
    var s1 := Receive(s, ps[0], atob);
    OpenDeltaStep(s, ps[0], atob, role);
    assert ReceiveAll(s, ps, atob) == ReceiveAll(s1, ps[1..], atob);
    assert Deltas(ps) == d0 + Deltas(ps[1..]);
    if |ps| == 1 {
      assert ps[1..] == [];
      assert ReceiveAll(s1, ps[1..], atob) == s1;
      assert Deltas(ps[1..]) == "";
      assert d0 + "" == d0;
    } else {
      OpenTurnAccumulates(s1, ps[1..], atob, role);
      WithLastTextTwice(s.messages, t + d0, (t + d0) + Deltas(ps[1..]));
      ConcatAssoc(t, d0, Deltas(ps[1..]));
    }
  }

  /** Once no entry of that role is open, a run of text deltas of one role
      produces exactly one new entry, holding the deltas concatenated in order,
      with the next fresh id, which stays the open turn. */
  lemma {:induction false} NewTurnCollectsDeltas(s: ChatState, ps: seq<Payload>, atob: string -> Option<string>, role: string)
    requires !ExtendsLast(s.messages, s.openTurn, Str(role))
    requires |ps| > 0
    requires forall i :: 0 <= i < |ps| ==> IsTextDelta(ps[i]) && SenderRole(ps[i].frame) == Str(role)
    ensures ReceiveAll(s, ps, atob).messages
            == s.messages + [ChatMessage(NatToString(s.clock), Str(role), Str(Deltas(ps)), map[])]
    ensures ReceiveAll(s, ps, atob).openTurn == Some(NatToString(s.clock))
  {
    var d0 := ps[0].frame.data.s;
    var s1 := Receive(s, ps[0], atob);
    NewDeltaStep(s, ps[0], atob, role);
    var entry := ChatMessage(NatToString(s.clock), Str(role), Str(d0), map[]);
    assert ReceiveAll(s, ps, atob) == ReceiveAll(s1, ps[1..], atob);
    assert Deltas(ps) == d0 + Deltas(ps[1..]);
    if |ps| == 1 {
      assert ps[1..] == [];
      assert Deltas(ps) == d0;
      assert ReceiveAll(s, ps, atob) == s1;
    } else {
      var n := |s1.messages|;
      assert OpenFor(s1, role);
      OpenTurnAccumulates(s1, ps[1..], atob, role);
      assert s1.messages[..n - 1] == s.messages;
      assert TextOf(Str(d0)) == d0;
    }
  }

  /** After a frame that completes the turn, the next text frame always opens
      a new entry, whatever its role. */
  lemma TurnCompleteClosesTurn(s: ChatState, done: Payload, next: Payload, atob: string -> Option<string>)
    requires done.Parsed? && Truthy(done.frame.turnComplete)
    requires next.Parsed? && next.frame.mimeType == TextPlain
    ensures var mid := Receive(s, done, atob);
      var r := Receive(mid, next, atob);
      && |r.messages| == |mid.messages| + 1
      && r.messages[..|mid.messages|] == mid.messages
      && r.messages[|mid.messages|].id == NatToString(mid.clock)
  {
    var mid := Receive(s, done, atob);
    ReceiveEffects(s, done, atob);
    var t := TextStep(mid, next.frame);
    assert !ExtendsLast(mid.messages, mid.openTurn, SenderRole(next.frame));
    SideStepEffects(TurnStep(t, next.frame), next.frame, atob);
  }

  /** base64ToArray: decode with atob, then copy the character codes into a
      Uint8Array one by one. `ok` is false where atob throws. */
  method Base64ToArray(base64: string, atob: string -> Option<string>) returns (ok: bool, bytes: array<int>)
    ensures ok <==> atob(base64).Some?
    ensures ok ==> bytes.Length == |atob(base64).value|
    ensures ok ==> forall i :: 0 <= i < bytes.Length ==> bytes[i] == (atob(base64).value[i] as int) % 256
    ensures ok ==> bytes[..] == CharCodes(atob(base64).value)
  {
    var decoded := atob(base64);
    if decoded.None? {
      ok := false;
      bytes := new int[0];
      return;
    }
    var binary := decoded.value;
    bytes := new int[|binary|];
    for i := 0 to |binary|
      invariant forall k :: 0 <= k < i ==> bytes[k] == (binary[k] as int) % 256
    {
      bytes[i] := (binary[i] as int) % 256;
    }
    ok := true;
  }

  /** The provider's state holders and the handlers that update them. */
  class ChatProvider {
    var messages: seq<ChatMessage>
    var openTurn: Option<string>
    var isGenerating: bool
    var productData: Value
    var chatHeight: int
    var chatHeightInPx: int
    var hasPlayer: bool
    var posted: seq<PortMessage>
    var clock: nat
    var connected: bool
    var sendEnabled: bool

    function State(): ChatState
      reads this
    {
      ChatState(messages, openTurn, isGenerating, productData, chatHeight, chatHeightInPx, hasPlayer, posted, clock)
    }

    constructor ()
      ensures State() == InitialState
      ensures !connected && !sendEnabled
    {
      messages, openTurn, isGenerating := [], None, false;
      productData, chatHeight, chatHeightInPx := Arr([]), 60, 0;
      hasPlayer, posted, clock := false, [], 0;
      connected, sendEnabled := false, false;
    }

    /** addMessage: append one entry, as given. */
    method AddMessage(m: ChatMessage)
      modifies this
      ensures State() == old(State()).(messages := old(messages) + [m])
      ensures connected == old(connected) && sendEnabled == old(sendEnabled)
    {
      messages := messages + [m];
    }

    /** es.onopen */
    method OnOpen()
      modifies this
      ensures connected && sendEnabled
      ensures State() == old(State())
    {
      connected := true;
      sendEnabled := true;
    }

    /** es.onerror, up to closing the stream; the reconnect timer is not modelled. */
    method OnError()
      modifies this
      ensures !connected && !sendEnabled
      ensures State() == old(State())
    {
      sendEnabled := false;
      connected := false;
    }

    /** A consumer of the context sets or clears audioPlayerNode.current. */
    method SetPlayer(present: bool)
      modifies this
      ensures State() == old(State()).(hasPlayer := present)
      ensures connected == old(connected) && sendEnabled == old(sendEnabled)
    {
      hasPlayer := present;
    }

    /** es.onmessage, statement by statement. */
    method OnMessage(p: Payload, atob: string -> Option<string>)
      modifies this
      ensures State() == Receive(old(State()), p, atob)
      ensures connected == old(connected) && sendEnabled == old(sendEnabled)
    {
      if p.Malformed? {
        return;
      }
      var msg := p.frame;
      if msg.mimeType == TextPlain {
        OnText(msg);
      }
      if Truthy(msg.turnComplete) {
        openTurn := None;
        isGenerating := false;
      }
      OnSideChannels(msg, atob);
    }

    /** The text/plain branch of es.onmessage. */
    method OnText(msg: Frame)
      requires msg.mimeType == TextPlain
      modifies this
      ensures State() == ApplyText(old(State()), msg)
      ensures connected == old(connected) && sendEnabled == old(sendEnabled)
    {
      isGenerating := true;
      var role := SenderRole(msg);
      if |messages| > 0 && StrictEquals(messages[|messages| - 1].role, role)
         && openTurn == Some(messages[|messages| - 1].id)
      {
        var last := messages[|messages| - 1];
        messages := messages[..|messages| - 1] + [last.(message := Plus(OrEmpty(last.message), msg.data))];
      } else {
        var newId := NatToString(clock);
        clock := clock + 1;
        openTurn := Some(newId);
        messages := messages + [ChatMessage(newId, role, msg.data, map[])];
      }
    }

    /** The interrupted, audio and product-data branches of es.onmessage. */
    method OnSideChannels(msg: Frame, atob: string -> Option<string>)
      modifies this
      ensures State() == SideStep(old(State()), msg, atob)
      ensures connected == old(connected) && sendEnabled == old(sendEnabled)
    {
      if Truthy(msg.interrupted) && hasPlayer {
        posted := posted + [EndOfAudio];
        return;
      }
      if msg.mimeType == AudioPcm && hasPlayer {
        var ok, bytes := Base64ToArray(ToStr(msg.data), atob);
        if !ok {
          return;
        }
        posted := posted + [Pcm(bytes[..])];
      }
      if msg.mimeType == ApplicationJson {
        productData := msg.data;
        chatHeight := 35;
        chatHeightInPx := 20;
      }
    }
  }
}
