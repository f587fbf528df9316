/** The virtual try-on page (frontend/app/try-on/page.tsx): garment selection
    by type, the webhook payload, the interpretation of the webhook's reply and
    of the image upload's reply, and the guards on the try-on button. */
module TryOn {
  import opened JsValue

  /** A catalog garment; `price` is in cents. */
  datatype Garment = Garment(id: int, name: string, image: string, category: string, price: int, garmentType: string)

  const UpperBody := "upper_body"
  const LowerBody := "lower_body"

  /** The page's fixed catalog. */
  const TryOnProducts: seq<Garment> := [
    Garment(1, "Floral Summer pant",
      "https://res.cloudinary.com/dqhry9ysg/image/upload/v1754907984/r95xqygW_908f4b3bf54842f7875feb024d8d28b2_lks7dh.webp",
      "Dresses", 6599, LowerBody),
    Garment(2, "White Kurtha",
      "https://res.cloudinary.com/dqhry9ysg/image/upload/v1754907984/7l7oKg5A_04ea01c32d3543b89ae4280d67e283e0_x791cu.webp",
      "Tops", 2999, UpperBody)
  ]

  /** The JSON body POSTed to the webhook proxy. */
  datatype WebhookPayload = WebhookPayload(modelImage: Value, upperBody: Value, lowerBody: Value, selectedGarments: seq<Garment>)

  /** How the webhook call ended: a rejected fetch or unparsable body (with the
      error's message), a non-ok status, or a parsed JSON body. */
  datatype WebhookReply = WebhookThrew(message: string) | WebhookNotOk(status: int) | WebhookBody(data: Value)

  /** How the upload call ended, in the same three ways. */
  datatype UploadReply = UploadThrew(message: string) | UploadNotOk(status: int) | UploadBody(data: Value)

  /** The page state. `error` and `webhookStatus` hold null, a string, or (for a
      status taken from the reply's `message`) whatever the reply carried. */
  datatype TryOnState = TryOnState(
    userImage: Value,
    selected: seq<Garment>,
    isProcessing: bool,
    tryOnResult: Value,
    webhookResponse: Value,
    error: Value,
    webhookStatus: Value,
    requests: seq<WebhookPayload>)   // payloads sent to the webhook, in order

  const InitialState := TryOnState(Null, [], false, Null, Null, Null, Null, [])

  const ImageStatus := "Try-on completed successfully! Generated image displayed."
  const SuccessStatus := "Try-on completed successfully! Check the response details below."
  const ProcessingStatus := "Processing your try-on request... This may take a few moments."
  const ProcessedStatus := "Try-on request processed. Check response details below."
  const NoImageError := "Please upload an image first."
  const NoGarmentError := "Please select at least one garment to try on."

  // ---------------------------------------------------------------------------
  // Garment selection

  /** findIndex by garment type: the first position holding type `t`, or -1. */
  function FirstIndexOfType(gs: seq<Garment>, t: string): (r: int)
    ensures -1 <= r < |gs|
    ensures r >= 0 ==> gs[r].garmentType == t && forall k :: 0 <= k < r ==> gs[k].garmentType != t
    ensures r == -1 <==> forall k :: 0 <= k < |gs| ==> gs[k].garmentType != t
  {
    if gs == [] then -1
    else if gs[0].garmentType == t then 0
    else
      var k := FirstIndexOfType(gs[1..], t);
      if k == -1 then -1 else k + 1
  }

  /** The same search as a loop over the array. */
  method FindIndexOfType(gs: array<Garment>, t: string) returns (idx: int)
    ensures idx == FirstIndexOfType(gs[..], t)
    ensures idx >= 0 ==> gs[idx].garmentType == t && forall k :: 0 <= k < idx ==> gs[k].garmentType != t
    ensures idx == -1 ==> forall k :: 0 <= k < gs.Length ==> gs[k].garmentType != t
  {
    var i := 0;
    while i < gs.Length
      invariant 0 <= i <= gs.Length
      invariant forall k :: 0 <= k < i ==> gs[k].garmentType != t
    {
      if gs[i].garmentType == t {
        return i;
      }
      i := i + 1;
    }
    return -1;
  }

  /** handleGarmentSelection: a garment of a type already selected replaces the
      first garment of that type in place; otherwise it is appended. */
  function SelectGarment(gs: seq<Garment>, g: Garment): (r: seq<Garment>)
    ensures FirstIndexOfType(gs, g.garmentType) >= 0 ==>
      var i := FirstIndexOfType(gs, g.garmentType);
      |r| == |gs| && r[i] == g && forall k :: 0 <= k < |gs| && k != i ==> r[k] == gs[k]
    ensures FirstIndexOfType(gs, g.garmentType) == -1 ==> r == gs + [g]
    ensures g in r
  {
    var i := FirstIndexOfType(gs, g.garmentType);
    if i >= 0 then gs[i := g] else gs + [g]
  }

  /** removeGarment: every garment of type `t` goes, the rest keep their order. */
  function RemoveType(gs: seq<Garment>, t: string): (r: seq<Garment>)
    ensures |r| <= |gs|
    ensures forall g :: g in r ==> g in gs && g.garmentType != t
    ensures forall g :: g in gs && g.garmentType != t ==> g in r
  {
    if gs == [] then []
    else if gs[0].garmentType == t then RemoveType(gs[1..], t)
    else [gs[0]] + RemoveType(gs[1..], t)
  }

  /** Removal works element by element, so it keeps the relative order. */
  lemma {:induction false} RemoveTypeConcat(xs: seq<Garment>, ys: seq<Garment>, t: string)
    ensures RemoveType(xs + ys, t) == RemoveType(xs, t) + RemoveType(ys, t)
    decreases |xs|
  {
    if xs == [] {
      assert xs + ys == ys;
    } else {
      assert (xs + ys)[0] == xs[0];
      assert (xs + ys)[1..] == xs[1..] + ys;
      RemoveTypeConcat(xs[1..], ys, t);
    }
  }

  /** Selected garments have pairwise distinct types. */
  predicate DistinctTypes(gs: seq<Garment>)
  {
    forall i, j :: 0 <= i < j < |gs| ==> gs[i].garmentType != gs[j].garmentType
  }

  /** Selection keeps at most one garment per type. */
  lemma DistinctTypesPreserved(gs: seq<Garment>, g: Garment)
    requires DistinctTypes(gs)
    ensures DistinctTypes(SelectGarment(gs, g))
  {
    var r := SelectGarment(gs, g);
    var i := FirstIndexOfType(gs, g.garmentType);
    if i >= 0 {
      forall a, b | 0 <= a < b < |r|
        ensures r[a].garmentType != r[b].garmentType
      {
        assert r[a].garmentType == gs[a].garmentType;
        assert r[b].garmentType == gs[b].garmentType;
      }
    }
  }

  /** Removing a type right after selecting a garment of that type gives the
      same list as removing it before: the selection leaves no other trace. */
  lemma SelectThenRemove(gs: seq<Garment>, g: Garment)
    ensures RemoveType(SelectGarment(gs, g), g.garmentType) == RemoveType(gs, g.garmentType)
  {
    var t := g.garmentType;
    var i := FirstIndexOfType(gs, t);
    if i >= 0 {
      assert gs == gs[..i] + [gs[i]] + gs[i + 1..];
      assert gs[i := g] == gs[..i] + [g] + gs[i + 1..];
      RemoveTypeConcat(gs[..i] + [gs[i]], gs[i + 1..], t);
      RemoveTypeConcat(gs[..i], [gs[i]], t);
      RemoveTypeConcat(gs[..i] + [g], gs[i + 1..], t);
      RemoveTypeConcat(gs[..i], [g], t);
      assert [gs[i]][1..] == [] && [g][1..] == [];
    } else {
      RemoveTypeConcat(gs, [g], t);
      assert [g][1..] == [];
    }
  }

  // ---------------------------------------------------------------------------
  // The webhook request and its reply

  /** `find(type)?.image || null` */
  function ImageOfType(gs: seq<Garment>, t: string): Value
  {
    var i := FirstIndexOfType(gs, t);
    if i >= 0 && gs[i].image != "" then Str(gs[i].image) else Null
  }

  /** The image sent for a garment type is the image of the first selected
      garment of that type; it is null when there is none or its image is
      empty. */
  lemma ImageOfTypeIsFirst(gs: seq<Garment>, t: string)
    ensures var r := ImageOfType(gs, t);
      && (r != Null ==> exists k :: 0 <= k < |gs| && gs[k].garmentType == t && r == Str(gs[k].image)
                                    && forall j :: 0 <= j < k ==> gs[j].garmentType != t)
      && (r == Null <==> (forall k :: 0 <= k < |gs| ==> gs[k].garmentType != t) || gs[FirstIndexOfType(gs, t)].image == "")
  {
  }

  /** The unified payload: the user image, the image of the first upper-body
      and first lower-body garment (null when absent or empty), and the list. */
  function BuildPayload(userImage: Value, gs: seq<Garment>): WebhookPayload
  {
    WebhookPayload(userImage, ImageOfType(gs, UpperBody), ImageOfType(gs, LowerBody), gs)
  }

  /** The payload carries the user image and the whole selection; its
      upper-body (lower-body) image is that of the first selected garment of
      that type, and null exactly when no such garment is selected or its
      image is empty. */
  lemma PayloadContents(userImage: Value, gs: seq<Garment>)
    ensures var r := BuildPayload(userImage, gs);
      && r.modelImage == userImage && r.selectedGarments == gs
      && (r.upperBody != Null ==> exists k :: 0 <= k < |gs| && gs[k].garmentType == UpperBody && r.upperBody == Str(gs[k].image)
                                              && forall j :: 0 <= j < k ==> gs[j].garmentType != UpperBody)
      && (r.upperBody == Null <==> (forall k :: 0 <= k < |gs| ==> gs[k].garmentType != UpperBody)
                                   || gs[FirstIndexOfType(gs, UpperBody)].image == "")
      && (r.lowerBody != Null ==> exists k :: 0 <= k < |gs| && gs[k].garmentType == LowerBody && r.lowerBody == Str(gs[k].image)
                                              && forall j :: 0 <= j < k ==> gs[j].garmentType != LowerBody)
      && (r.lowerBody == Null <==> (forall k :: 0 <= k < |gs| ==> gs[k].garmentType != LowerBody)
                                   || gs[FirstIndexOfType(gs, LowerBody)].image == "")
  {
    ImageOfTypeIsFirst(gs, UpperBody);
    ImageOfTypeIsFirst(gs, LowerBody);
  }

  /** The fields that may carry the generated image, in the order they are tried. */
  function ResultCandidates(d: Value): (r: seq<Value>)
    ensures |r| == 7
  {
    [Get(d, "result_image"), Get(d, "image_url"), Get(d, "generated_image"), Get(d, "output_image"),
     Get(d, "try_on_result"), Get(Get(d, "data"), "image"), Get(Get(d, "result"), "image")]
  }

  /** The first truthy value of a list, or null. */
  function FirstTruthy(vs: seq<Value>): Value
  {
    if vs == [] then Null
    else if Truthy(vs[0]) then vs[0]
    else FirstTruthy(vs[1..])
  }

  /** FirstTruthy is null exactly when no value is truthy, and otherwise the
      truthy value that comes before every other truthy one. */
  lemma {:induction false} FirstTruthyIsFirst(vs: seq<Value>)
    ensures FirstTruthy(vs) == Null <==> forall k :: 0 <= k < |vs| ==> !Truthy(vs[k])
    ensures FirstTruthy(vs) != Null ==> exists i :: 0 <= i < |vs| && FirstTruthy(vs) == vs[i] && Truthy(vs[i])
                                                   && forall k :: 0 <= k < i ==> !Truthy(vs[k])
  {
    if vs != [] && !Truthy(vs[0]) {
      FirstTruthyIsFirst(vs[1..]);
      if FirstTruthy(vs) != Null {
        var i :| 0 <= i < |vs[1..]| && FirstTruthy(vs[1..]) == vs[1..][i] && Truthy(vs[1..][i])
                 && forall k :: 0 <= k < i ==> !Truthy(vs[1..][k]);
        assert vs[i + 1] == vs[1..][i];
        forall k | 0 <= k < i + 1
          ensures !Truthy(vs[k])
        {
          if k > 0 {
            assert vs[k] == vs[1..][k - 1];
          }
        }
      } else {
        forall k | 0 <= k < |vs|
          ensures !Truthy(vs[k])
        {
          if k > 0 {
            assert vs[k] == vs[1..][k - 1];
          }
        }
      }
    } else if vs != [] {
      assert Truthy(vs[0]);
    }
  }

  /** The if/else-if chain that picks the generated image out of the reply. */
  function ResultImage(d: Value): Value
  {
    if Truthy(Get(d, "result_image")) then Get(d, "result_image")
    else if Truthy(Get(d, "image_url")) then Get(d, "image_url")
    else if Truthy(Get(d, "generated_image")) then Get(d, "generated_image")
    else if Truthy(Get(d, "output_image")) then Get(d, "output_image")
    else if Truthy(Get(d, "try_on_result")) then Get(d, "try_on_result")
    else if Truthy(Get(d, "data")) && Truthy(Get(Get(d, "data"), "image")) then Get(Get(d, "data"), "image")
    else if Truthy(Get(d, "result")) && Truthy(Get(Get(d, "result"), "image")) then Get(Get(d, "result"), "image")
    else Null
  }

  /** The chain yields the first truthy candidate, null when there is none. */
  lemma ResultImageIsFirstTruthy(d: Value)
    ensures ResultImage(d) == FirstTruthy(ResultCandidates(d))
  {
    var data, result := Get(d, "data"), Get(d, "result");
    assert !Truthy(data) ==> !Truthy(Get(data, "image"));
    assert !Truthy(result) ==> !Truthy(Get(result, "image"));
    FirstTruthyOfSeven(Get(d, "result_image"), Get(d, "image_url"), Get(d, "generated_image"), Get(d, "output_image"),
      Get(d, "try_on_result"), Get(data, "image"), Get(result, "image"));
  }

  lemma FirstTruthyOfSeven(v0: Value, v1: Value, v2: Value, v3: Value, v4: Value, v5: Value, v6: Value)
    ensures FirstTruthy([v0, v1, v2, v3, v4, v5, v6]) ==
      if Truthy(v0) then v0 else if Truthy(v1) then v1 else if Truthy(v2) then v2
      else if Truthy(v3) then v3 else if Truthy(v4) then v4 else if Truthy(v5) then v5
      else if Truthy(v6) then v6 else Null
  {
    assert [v6][1..] == [];
    assert FirstTruthy([v6]) == if Truthy(v6) then v6 else Null;
    assert [v5, v6][1..] == [v6];
    assert FirstTruthy([v5, v6]) == if Truthy(v5) then v5 else FirstTruthy([v6]);
    assert [v4, v5, v6][1..] == [v5, v6];
    assert FirstTruthy([v4, v5, v6]) == if Truthy(v4) then v4 else FirstTruthy([v5, v6]);
    assert [v3, v4, v5, v6][1..] == [v4, v5, v6];
    assert FirstTruthy([v3, v4, v5, v6]) == if Truthy(v3) then v3 else FirstTruthy([v4, v5, v6]);
    assert [v2, v3, v4, v5, v6][1..] == [v3, v4, v5, v6];
    assert FirstTruthy([v2, v3, v4, v5, v6]) == if Truthy(v2) then v2 else FirstTruthy([v3, v4, v5, v6]);
    assert [v1, v2, v3, v4, v5, v6][1..] == [v2, v3, v4, v5, v6];
    assert FirstTruthy([v1, v2, v3, v4, v5, v6]) == if Truthy(v1) then v1 else FirstTruthy([v2, v3, v4, v5, v6]);
    assert [v0, v1, v2, v3, v4, v5, v6][1..] == [v1, v2, v3, v4, v5, v6];
    assert FirstTruthy([v0, v1, v2, v3, v4, v5, v6]) == if Truthy(v0) then v0 else FirstTruthy([v1, v2, v3, v4, v5, v6]);
  }

  /** With no generated image, the first applicable report: a success flag, a
      "processing" status, an error (which goes to `error`), a message, or the
      generic status. */
  function ReportWithoutImage(s: TryOnState, d: Value): (r: TryOnState)
    ensures r.(error := s.error, webhookStatus := s.webhookStatus) == s
    ensures Truthy(Get(d, "success")) ==> r == s.(webhookStatus := Str(SuccessStatus))
    ensures !Truthy(Get(d, "success")) && StrictEquals(Get(d, "status"), Str("processing")) ==>
      r == s.(webhookStatus := Str(ProcessingStatus))
    ensures !Truthy(Get(d, "success")) && !StrictEquals(Get(d, "status"), Str("processing")) && Truthy(Get(d, "error")) ==>
      r == s.(error := Str("Try-on failed: " + ToStr(Get(d, "error"))))
    ensures !Truthy(Get(d, "success")) && !StrictEquals(Get(d, "status"), Str("processing")) && !Truthy(Get(d, "error")) ==>
      r == s.(webhookStatus := if Truthy(Get(d, "message")) then Get(d, "message") else Str(ProcessedStatus))
  {
    if Truthy(Get(d, "success")) then s.(webhookStatus := Str(SuccessStatus))
    else if StrictEquals(Get(d, "status"), Str("processing")) then s.(webhookStatus := Str(ProcessingStatus))
    else if Truthy(Get(d, "error")) then s.(error := Str("Try-on failed: " + ToStr(Get(d, "error"))))
    else if Truthy(Get(d, "message")) then s.(webhookStatus := Get(d, "message"))
    else s.(webhookStatus := Str(ProcessedStatus))
  }

  /** The part of handleTryOn before the await: a no-op without a user image or
      garments; otherwise processing starts, the previous outcome is cleared and
      the payload is sent. */
  function BeginTryOn(s: TryOnState): (r: TryOnState)
    ensures !Truthy(s.userImage) || s.selected == [] ==> r == s
    ensures Truthy(s.userImage) && s.selected != [] ==>
      && r.isProcessing
      && r.error == Null && r.webhookStatus == Null && r.webhookResponse == Null && r.tryOnResult == Null
      && r.requests == s.requests + [BuildPayload(s.userImage, s.selected)]
      && r.userImage == s.userImage && r.selected == s.selected
  {
    if !Truthy(s.userImage) || s.selected == [] then s
    else s.(isProcessing := true, webhookStatus := Null, error := Null, webhookResponse := Null,
            tryOnResult := Null, requests := s.requests + [BuildPayload(s.userImage, s.selected)])
  }

  /** A parsed webhook reply: the generated image if there is one, the report
      without it otherwise. A null body fails on its first property read. */
  function InterpretReply(s: TryOnState, d: Value): (r: TryOnState)
    ensures r.userImage == s.userImage && r.selected == s.selected && r.requests == s.requests
    ensures r.isProcessing == s.isProcessing && r.webhookResponse == s.webhookResponse
    ensures d.Null? || d.Undefined? ==> r == s.(error := Str(NullReadMessage(d, "result_image")))
    ensures !(d.Null? || d.Undefined?) && FirstTruthy(ResultCandidates(d)) != Null ==>
      r == s.(tryOnResult := FirstTruthy(ResultCandidates(d)), webhookStatus := Str(ImageStatus))
    ensures !(d.Null? || d.Undefined?) && FirstTruthy(ResultCandidates(d)) == Null ==>
      r == ReportWithoutImage(s, d)
  {
    ResultImageIsFirstTruthy(d);
    if d.Null? || d.Undefined? then s.(error := Str(NullReadMessage(d, "result_image")))
    else if Truthy(ResultImage(d)) then s.(tryOnResult := ResultImage(d), webhookStatus := Str(ImageStatus))
    else ReportWithoutImage(s, d)
  }

  /** The part of handleTryOn after the await, ending with processing off. A
      null body fails on its first property read. */
  function FinishTryOn(s: TryOnState, reply: WebhookReply): (r: TryOnState)
    ensures !r.isProcessing
    ensures r.userImage == s.userImage && r.selected == s.selected && r.requests == s.requests
    ensures reply.WebhookNotOk? ==>
      r == s.(error := Str("Webhook failed: " + IntToString(reply.status)), isProcessing := false)
    ensures reply.WebhookThrew? ==>
      r == s.(error := Str(MessageOr(reply.message, "Webhook request failed")), isProcessing := false)
    ensures reply.WebhookBody? ==> r.webhookResponse == reply.data
    ensures reply.WebhookBody? ==> r == InterpretReply(s.(webhookResponse := reply.data), reply.data).(isProcessing := false)
  {
    var s1 :=
      match reply
      case WebhookNotOk(status) => s.(error := Str("Webhook failed: " + IntToString(status)))
      case WebhookThrew(message) => s.(error := Str(MessageOr(message, "Webhook request failed")))
      case WebhookBody(d) => InterpretReply(s.(webhookResponse := d), d);
    s1.(isProcessing := false)
  }

  /** The try-on button's handler: a missing image is reported before missing
      garments; otherwise the request begins. */
  function ClickTryOn(s: TryOnState): (r: TryOnState)
    ensures !Truthy(s.userImage) ==> r == s.(error := Str(NoImageError))
    ensures Truthy(s.userImage) && s.selected == [] ==> r == s.(error := Str(NoGarmentError))
    ensures Truthy(s.userImage) && s.selected != [] ==> r == BeginTryOn(s) && r.isProcessing
    ensures |r.requests| == |s.requests| + (if Truthy(s.userImage) && s.selected != [] then 1 else 0)
  {
    if !Truthy(s.userImage) then s.(error := Str(NoImageError))
    else if s.selected == [] then s.(error := Str(NoGarmentError))
    else BeginTryOn(s)
  }

  /** When the button is disabled. */
  predicate Disabled(s: TryOnState)
  {
    !Truthy(s.userImage) || s.selected == [] || s.isProcessing
  }

  /** The button is disabled in every state where its handler would report a
      missing image or garment, so through the button those two messages never
      appear: an enabled click always begins a request. */
  lemma EnabledClickBegins(s: TryOnState)
    requires !Disabled(s)
    ensures ClickTryOn(s) == BeginTryOn(s)
    ensures ClickTryOn(s).isProcessing && |ClickTryOn(s).requests| == |s.requests| + 1
  {
  }

  /** A completed request (begun and finished) leaves processing off and sends
      exactly one payload, built from the state at the click. */
  lemma RequestRoundTrip(s: TryOnState, reply: WebhookReply)
    requires Truthy(s.userImage) && s.selected != []
    ensures var r := FinishTryOn(BeginTryOn(s), reply);
      !r.isProcessing && r.requests == s.requests + [BuildPayload(s.userImage, s.selected)]
      && r.selected == s.selected && r.userImage == s.userImage
  {
  }

  // ---------------------------------------------------------------------------
  // The image upload

  /** handleImageUpload once the upload has ended. `preview` is the data URL the
      FileReader produces for the picked file (None: no file was picked). On
      success the URL becomes the user image, the error is cleared and, when
      nothing is selected, the first catalog garment is preselected. On any
      failure the error message is shown and the local preview is used. */
  function UploadImage(s: TryOnState, preview: Option<string>, reply: UploadReply): (r: TryOnState)
    ensures preview.None? ==> r == s
    ensures r.isProcessing == s.isProcessing && r.requests == s.requests && r.webhookResponse == s.webhookResponse
    ensures r.webhookStatus == s.webhookStatus
    ensures preview.Some? ==> r.tryOnResult == Null
    ensures preview.Some? && reply.UploadBody? && Truthy(Get(reply.data, "url")) ==>
      && r.userImage == Get(reply.data, "url") && r.error == Str("")
      && r.selected == (if s.selected == [] then [TryOnProducts[0]] else s.selected)
    ensures preview.Some? && !(reply.UploadBody? && Truthy(Get(reply.data, "url"))) ==>
      && r.userImage == Str(preview.value) && r.selected == s.selected
      && r.error == Str(MessageOr(UploadFailure(reply), "Upload failed"))
  {
    match preview
    case None => s
    case Some(localUrl) =>
      if reply.UploadBody? && Truthy(Get(reply.data, "url")) then
        s.(userImage := Get(reply.data, "url"), tryOnResult := Null, error := Str(""),
           selected := if s.selected == [] then [TryOnProducts[0]] else s.selected)
      else
        s.(error := Str(MessageOr(UploadFailure(reply), "Upload failed")),
           userImage := Str(localUrl), tryOnResult := Null)
  }

  /** The message of the error an unsuccessful upload throws. */
  function UploadFailure(reply: UploadReply): (m: string)
    ensures reply.UploadNotOk? ==> m == "Upload failed: " + IntToString(reply.status)
    ensures reply.UploadBody? && (reply.data.Null? || reply.data.Undefined?) ==> m == NullReadMessage(reply.data, "url")
    ensures reply.UploadBody? && !(reply.data.Null? || reply.data.Undefined?) && Truthy(Get(reply.data, "error")) ==>
      m == ToStr(Get(reply.data, "error"))
    ensures reply.UploadBody? && !(reply.data.Null? || reply.data.Undefined?) && !Truthy(Get(reply.data, "error")) ==>
      m == "No URL returned from upload"
  {
    match reply
    case UploadThrew(message) => message
    case UploadNotOk(status) => "Upload failed: " + IntToString(status)
    case UploadBody(d) =>
      if d.Null? || d.Undefined? then NullReadMessage(d, "url")
      else if Truthy(Get(d, "error")) then ToStr(Get(d, "error"))
      else "No URL returned from upload"
  }

  /** A reply whose `error` is a truthy value with an empty string form (an
      empty array) still shows the fallback text, never an empty error. */
  lemma UploadErrorNeverEmpty(s: TryOnState, preview: string, reply: UploadReply)
    requires !(reply.UploadBody? && Truthy(Get(reply.data, "url")))
    ensures UploadImage(s, Some(preview), reply).error.Str?
    ensures UploadImage(s, Some(preview), reply).error.s != ""
  {
  }

  /** A successful upload always leaves a garment selected, so that only the
      processing flag can keep the try-on button disabled. */
  lemma UploadSuccessEnablesTryOn(s: TryOnState, preview: string, d: Value)
    requires Truthy(Get(d, "url"))
    ensures var r := UploadImage(s, Some(preview), UploadBody(d));
      Disabled(r) <==> r.isProcessing
  {
  }

  /** resetTryOn: clears the user image, the selection and the result only. */
  function Reset(s: TryOnState): (r: TryOnState)
    ensures r.userImage == Null && r.selected == [] && r.tryOnResult == Null
    ensures r.(userImage := s.userImage, selected := s.selected, tryOnResult := s.tryOnResult) == s
    ensures Disabled(r)
  {
    s.(userImage := Null, selected := [], tryOnResult := Null)
  }

  // ---------------------------------------------------------------------------
  // The component

  class TryOnPage {
    var userImage: Value
    var selected: seq<Garment>
    var isProcessing: bool
    var tryOnResult: Value
    var webhookResponse: Value
    var error: Value
    var webhookStatus: Value
    var requests: seq<WebhookPayload>

    function State(): TryOnState
      reads this
    {
      TryOnState(userImage, selected, isProcessing, tryOnResult, webhookResponse, error, webhookStatus, requests)
    }

    constructor ()
      ensures State() == InitialState
    {
      userImage, selected, isProcessing, tryOnResult := Null, [], false, Null;
      webhookResponse, error, webhookStatus, requests := Null, Null, Null, [];
    }

    /** handleGarmentSelection: copy the list, overwrite the slot of the same
        type, or append. */
    method HandleGarmentSelection(g: Garment)
      modifies this
      ensures State() == old(State()).(selected := SelectGarment(old(selected), g))
    {
      var copy := new Garment[|selected|](i requires 0 <= i < |selected| reads this => selected[i]);
      assert copy[..] == selected;
      var existing := FindIndexOfType(copy, g.garmentType);
      if existing >= 0 {
        copy[existing] := g;
        assert copy[..] == selected[existing := g];
        selected := copy[..];
      } else {
        selected := selected + [g];
      }
    }

    /** removeGarment */
    method RemoveGarment(t: string)
      modifies this
      ensures State() == old(State()).(selected := RemoveType(old(selected), t))
    {
      selected := RemoveType(selected, t);
    }

    /** The try-on button; `started` tells whether a request went out. */
    method OnTryOnClick() returns (started: bool)
      modifies this
      ensures State() == ClickTryOn(old(State()))
      ensures started <==> Truthy(old(userImage)) && old(selected) != []
    {
      if !Truthy(userImage) {
        error := Str(NoImageError);
        return false;
      }
      if selected == [] {
        error := Str(NoGarmentError);
        return false;
      }
      var payload := BuildPayload(userImage, selected);
      isProcessing, webhookStatus, error, webhookResponse, tryOnResult := true, Null, Null, Null, Null;
      requests := requests + [payload];
      return true;
    }

    /** The webhook's reply arrives. */
    method ReceiveWebhookReply(reply: WebhookReply)
      modifies this
      ensures State() == FinishTryOn(old(State()), reply)
    {
      match reply {
        case WebhookNotOk(status) =>
          error := Str("Webhook failed: " + IntToString(status));
        case WebhookThrew(message) =>
          error := Str(MessageOr(message, "Webhook request failed"));
        case WebhookBody(d) =>
          webhookResponse := d;
          if d.Null? || d.Undefined? {
            error := Str(NullReadMessage(d, "result_image"));
          } else {
            ResultImageIsFirstTruthy(d);
            var img := ResultImage(d);
            if Truthy(img) {
              tryOnResult := img;
              webhookStatus := Str(ImageStatus);
            } else if Truthy(Get(d, "success")) {
              webhookStatus := Str(SuccessStatus);
            } else if StrictEquals(Get(d, "status"), Str("processing")) {
              webhookStatus := Str(ProcessingStatus);
            } else if Truthy(Get(d, "error")) {
              error := Str("Try-on failed: " + ToStr(Get(d, "error")));
            } else if Truthy(Get(d, "message")) {
              webhookStatus := Get(d, "message");
            } else {
              webhookStatus := Str(ProcessedStatus);
            }
          }
      }
      isProcessing := false;
    }

    /** handleImageUpload, once the upload has ended. */
    method HandleImageUpload(preview: Option<string>, reply: UploadReply)
      modifies this
      ensures State() == UploadImage(old(State()), preview, reply)
    {
      if preview.None? {
        return;
      }
      if reply.UploadBody? && Truthy(Get(reply.data, "url")) {
        userImage := Get(reply.data, "url");
        tryOnResult := Null;
        error := Str("");
        if selected == [] {
          selected := [TryOnProducts[0]];
        }
      } else {
        error := Str(MessageOr(UploadFailure(reply), "Upload failed"));
        userImage := Str(preview.value);
        tryOnResult := Null;
      }
    }

    /** The remove button on the user image. */
    method ClearUserImage()
      modifies this
      ensures State() == old(State()).(userImage := Null)
    {
      userImage := Null;
    }

    /** resetTryOn */
    method ResetTryOn()
      modifies this
      ensures State() == Reset(old(State()))
    {
      userImage := Null;
      selected := [];
      tryOnResult := Null;
    }
  }
}
