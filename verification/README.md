# Shopping assistant: chat state, try-on, listing, upload and agent tools

This project models the client-side logic of the ShoppingAIAssistant web shop and one tool of its product-search agent, and proves properties of that model in Dafny.

- `chat_context.dfy`: the chat context provider.
  - Its frame handler folds server-sent frames into a transcript, keeping an "open turn" id.
  - It sets and clears the generating flag.
  - It stores product data, shrinks the chat panel, and posts audio or end-of-audio to the playback worklet.
  - `base64ToArray` copies decoded characters into a byte array.
  - The class `ChatProvider` holds the provider's state holders. Each handler is a method proved equal to a transition function.
- `ai_chat.dfy`: the stand-alone chat widget.
  - The session id is got or created in local storage.
  - An assistant-only version of the same reducer.
  - Optimistic submit with a loading guard, and the image pick that appends two entries.
- `try_on.dfy`: the virtual try-on page.
  - Garment selection keeps at most one garment per type, and removal by type.
  - The webhook payload, and the fixed-priority search for the generated image.
  - The status and error chain for replies without an image.
  - Interpretation of the upload reply, the reset, and the try-on button's guard.
- `products.dfy`: the product listing.
  - The derived category list.
  - The category filter and the inclusive price filter.
  - The five sort orders, realised as an in-place insertion sort on an array.
- `upload_route.dfy`: the upload endpoint.
  - The missing-file check.
  - Extension extraction, lower-casing, stripping to `[a-z0-9]` and the `png` default.
  - The stored file's name, and the response's path, URL and size.
- `agent_tools.dfy`: the agent's `load_products_details` and `format_product_response` over its fixed catalog.
- `image_upload.dfy`: the stand-alone image uploader's file, URL, loading and error state.
- `js_value.dfy` and `wire.dfy` are shared support modules.
  - `JsValue` covers JavaScript values, truthiness, strict equality, property reads, and number-to-string for integers.
  - `Wire` holds the decoded server frame: a record of optional fields, or `Malformed` when `JSON.parse` throws.

Modelling choices:
- Every handler is one atomic step over explicit state. The fields of a frame are processed in source order.
- The system supplies some values itself. The model takes these as parameters instead:
  - the browser's `atob`;
  - the outcome of `fetch` and `res.json()`;
  - the `FileReader` result;
  - local storage;
  - `Date.now()` and the random bytes;
  - the environment's application URL;
  - the outcome of the file write.
- Message ids that come from `Date.now()` are a counter rendered in decimal.
- Prices are integer cents and ratings integer tenths of a star.

Where the code and the design description differ, the model follows the code:
- A text frame with no `role` defaults to role `"system"` in the chat context.
- Picking an image in the chat widget only appends two local entries. It sends nothing to the server.
- No disconnect in the code suppresses the reconnect timer.

## Model

| member | source | states |
|---|---|---|
| ChatContext.ApplyText | frontend/context/chatContext.tsx:149-179 | A text frame extends the last entry exactly when that entry's role equals `msg.role \|\| "system"` and its id is the open turn. Extending keeps the length and every earlier entry, and the text becomes the old text (`""` when missing) followed by `data`. Otherwise exactly one entry is appended, with a fresh id, that role and `data`, and its id becomes the open turn. Generating is set either way, and product data, panel size and audio are untouched. |
| ChatContext.TextStep | frontend/context/chatContext.tsx:149-179 | Only a `text/plain` frame goes through the text branch; ApplyText states what it does. |
| ChatContext.TurnStep | frontend/context/chatContext.tsx:182-185 | A truthy `turn_complete` clears the open turn and the generating flag and nothing else. ReceiveEffects states this of the whole handler. |
| ChatContext.SideStep | frontend/context/chatContext.tsx:186-203 | The interrupted, audio and JSON branches in source order. SideStepEffects states what they change. |
| ChatContext.Receive | frontend/context/chatContext.tsx:141-208 | An unparsable payload changes nothing; a parsed frame goes through the text, turn and side-channel steps in source order. ReceiveEffects states the result. |
| ChatContext.ReceiveAll | frontend/context/chatContext.tsx:141-208 | Frames are handled one after another in delivery order. OpenTurnAccumulates and NewTurnCollectsDeltas state what a run of deltas gives. |
| ChatContext.SideStepEffects | frontend/context/chatContext.tsx:186-203 | The side channels never touch the transcript, the open turn or the generating flag. An interrupted frame with a player posts only end-of-audio and skips the audio and JSON handling. A JSON frame otherwise replaces product data and sets the heights to 35 and 20. PCM audio with a player posts the decoded bytes, or nothing when `atob` throws. |
| ChatContext.ReceiveEffects | frontend/context/chatContext.tsx:141-208 | A payload that fails to parse changes nothing. One frame adds at most one entry and keeps all but the last entry. Only text frames touch the transcript. A text frame leaves generating on unless the same frame completes the turn. `turn_complete` clears the open turn and the generating flag. |
| ChatContext.DeltaStep | frontend/context/chatContext.tsx:149-185 | A text frame without `turn_complete` changes the transcript, the open turn and the id counter exactly as the text branch does, and leaves generating on. |
| ChatContext.OpenDeltaStep | frontend/context/chatContext.tsx:154-166 | A delta of the open entry's role appends its text to that entry, and the entry stays open. |
| ChatContext.NewDeltaStep | frontend/context/chatContext.tsx:167-178 | A delta when no entry of its role is open appends one entry with the fresh id and the delta's text, and opens it. |
| ChatContext.OpenTurnAccumulates | frontend/context/chatContext.tsx:149-179 | Same-role deltas arriving while that role's entry is open all land in that entry. The transcript keeps its length, and the entry's text becomes the old text followed by every delta in order. |
| ChatContext.NewTurnCollectsDeltas | frontend/context/chatContext.tsx:149-179 | A run of same-role deltas with no open entry of that role yields exactly one new entry. Its text is the in-order concatenation of the deltas, and its fresh id stays the open turn. |
| ChatContext.TurnCompleteClosesTurn | frontend/context/chatContext.tsx:182-185 | After a turn-complete frame, the next text frame always appends a new entry with a fresh id, whatever its role. |
| ChatContext.Base64ToArray | frontend/context/chatContext.tsx:236-241 | Fails exactly when `atob` throws. Otherwise the array is as long as the decoded string, and byte i is character i's code modulo 256. |
| ChatContext.ChatProvider.constructor | frontend/context/chatContext.tsx:79-102 | The transcript starts empty, with no open turn, not generating, empty product data, panel height 60 and 0 px, and disconnected. |
| ChatContext.ChatProvider.AddMessage | frontend/context/chatContext.tsx:89-91 | Appends the given entry and changes nothing else. |
| ChatContext.ChatProvider.OnOpen | frontend/context/chatContext.tsx:132-136 | Sets connected and send-enabled and leaves the chat state alone. |
| ChatContext.ChatProvider.OnError | frontend/context/chatContext.tsx:210-216 | Clears connected and send-enabled and leaves the chat state alone. |
| ChatContext.ChatProvider.SetPlayer | frontend/context/chatContext.tsx:105 | Only the presence of the playback node changes. |
| ChatContext.ChatProvider.OnMessage | frontend/context/chatContext.tsx:141-208 | The statement-by-statement handler yields exactly the state the frame transition function gives, so ReceiveEffects holds of it. |
| ChatContext.ChatProvider.OnText | frontend/context/chatContext.tsx:149-179 | The in-place text branch yields exactly ApplyText's state. |
| ChatContext.ChatProvider.OnSideChannels | frontend/context/chatContext.tsx:186-203 | The interrupted, audio and JSON branches, which call Base64ToArray, yield exactly the side-channel transition's state. |
| AiChat.LoadSessionId | frontend/components/ai-chat.tsx:59-65 | A non-empty stored `chat_session_id` is returned and the store is unchanged. Otherwise the fresh id is written under that key and returned. Either way the store then maps the key to the returned id. |
| AiChat.SessionIdStable | frontend/components/ai-chat.tsx:59-65 | Loading the session id again returns the same id and leaves the store unchanged. |
| AiChat.GetOrCreateSessionId | frontend/components/ai-chat.tsx:59-65 | The getItem/setItem sequence on the store gives exactly LoadSessionId's id and store. |
| AiChat.Trim | frontend/components/ai-chat.tsx:164-166 | `trim()` returns a contiguous slice of the input. Only whitespace precedes or follows it, and it neither starts nor ends with whitespace. |
| AiChat.TrimEmptyIffBlank | frontend/components/ai-chat.tsx:164 | The trimmed input is empty exactly when the input is all whitespace. |
| AiChat.AddMessage | frontend/components/ai-chat.tsx:44-53 | Appends one entry with the next fresh id and leaves input, loading flag, open turn and sent events alone. |
| AiChat.ShouldAppend | frontend/components/ai-chat.tsx:107-112 | A frame extends the last entry only when that entry is an assistant entry whose id equals a non-empty open-turn id. ApplyText states both outcomes. |
| AiChat.ApplyText | frontend/components/ai-chat.tsx:103-137 | A text frame extends the last entry only when it is an assistant entry whose id equals a non-empty open-turn id; the entry's content is then followed by `data`. Otherwise it appends one assistant text entry with a fresh id and opens it. A user entry at the end is never extended. Loading is set. |
| AiChat.ReceiveEffects | frontend/components/ai-chat.tsx:98-149 | A payload that fails to parse changes nothing. At most one entry is added, and all but the last are kept. Only text frames touch the transcript. `turn_complete` clears the open turn and the loading flag. |
| AiChat.Receive | frontend/components/ai-chat.tsx:97-150 | An unparsable payload changes nothing; a text frame goes through the text branch, then `turn_complete` closes the turn and ends loading. ReceiveEffects states the result. |
| AiChat.ReceiveAll | frontend/components/ai-chat.tsx:97-150 | Frames are handled one after another in delivery order. ReceiveAllSplits, OpenReplyAccumulates and NewReplyCollectsDeltas state what runs of frames give. |
| AiChat.BeginSubmit | frontend/components/ai-chat.tsx:162-172 | Nothing happens when the trimmed input is empty or a reply is loading. Otherwise exactly one user text entry holding the trimmed input is appended, the input is cleared, loading is set, and `{text/plain, trimmed}` is sent. |
| AiChat.SettleSend | frontend/components/ai-chat.tsx:174-188 | When the POST settles, a rejected status or a thrown error clears loading, whatever frames have set since, and changes nothing else. A delivered send changes nothing. |
| AiChat.Submit | frontend/components/ai-chat.tsx:162-189 | The whole handler with no frame arriving during the POST. Nothing happens when the trimmed input is empty or a reply is loading. Otherwise exactly one user text entry holding the trimmed input is appended, the input is cleared, and `{text/plain, trimmed}` is sent. Loading stays set only when the send succeeds; a failed send keeps the entry. |
| AiChat.LateFailureAfterFrame | frontend/components/ai-chat.tsx:103-104 | A send rejected after the first reply delta has arrived ends loading, which that delta had kept on, and keeps the partial reply in the transcript. |
| AiChat.PickImage | frontend/components/ai-chat.tsx:195-203 | With a file, appends an image entry with the data URL, then the fixed user prompt, in that order, and changes nothing else. Without one, nothing changes. |
| AiChat.DeltaStep | frontend/components/ai-chat.tsx:103-143 | A text frame without `turn_complete` acts on the transcript and the turn exactly as the text branch does, and leaves loading on. |
| AiChat.OpenReplyAccumulates | frontend/components/ai-chat.tsx:106-121 | While an assistant entry is open, text deltas are appended to it in delivery order, and it stays open. |
| AiChat.NewReplyCollectsDeltas | frontend/components/ai-chat.tsx:106-136 | With no open assistant entry, a run of deltas yields exactly one new assistant entry holding their concatenation. |
| AiChat.HelloThereExchange | frontend/components/ai-chat.tsx:98-189 | Submitting "Hi", then receiving "Hello", " there" and turn-complete, leaves the user entry "Hi" followed by one assistant entry "Hello there", with loading off. |
| AiChat.AiChatWidget.constructor | frontend/components/ai-chat.tsx:24-65 | Starts with an empty transcript and input, not loading. The session id and store are those LoadSessionId gives. |
| AiChat.AiChatWidget.ChangeInput | frontend/components/ai-chat.tsx:40-42 | Only the input changes. |
| AiChat.AiChatWidget.Append | frontend/components/ai-chat.tsx:44-53 | The widget state becomes AddMessage's. |
| AiChat.AiChatWidget.OnMessage | frontend/components/ai-chat.tsx:98-149 | The handler yields exactly the frame transition's state. |
| AiChat.AiChatWidget.OnText | frontend/components/ai-chat.tsx:103-137 | The in-place text branch yields exactly ApplyText's state. |
| AiChat.AiChatWidget.StartSubmit | frontend/components/ai-chat.tsx:162-172 | The handler up to the await yields exactly BeginSubmit's state. `started` is true exactly when the POST goes out. |
| AiChat.AiChatWidget.SettleSubmit | frontend/components/ai-chat.tsx:174-188 | The handler's continuation, run whenever the POST settles, possibly after frames, yields exactly SettleSend's state. |
| AiChat.AiChatWidget.HandleSubmit | frontend/components/ai-chat.tsx:162-189 | Starting and then settling with nothing in between yields exactly Submit's state. |
| AiChat.AiChatWidget.HandleImageUpload | frontend/components/ai-chat.tsx:195-203 | The handler yields exactly PickImage's state. |
| TryOn.FirstIndexOfType | frontend/app/try-on/page.tsx:88 | `findIndex` by type gives the first position of that type, or -1 exactly when no garment has it. |
| TryOn.FindIndexOfType | frontend/app/try-on/page.tsx:88 | The loop over the copied array finds the same index. |
| TryOn.SelectGarment | frontend/app/try-on/page.tsx:87-99 | A garment of an already selected type replaces the first one of that type at the same index. Length and all other slots are kept. Otherwise it is appended at the end. |
| TryOn.RemoveType | frontend/app/try-on/page.tsx:101-103 | Every garment of the type is removed, and every other garment is kept. |
| TryOn.RemoveTypeConcat | frontend/app/try-on/page.tsx:101-103 | Removal works element by element, so the kept garments stay in their original order. |
| TryOn.DistinctTypesPreserved | frontend/app/try-on/page.tsx:87-99 | A selection with pairwise distinct garment types still has them after a selection. |
| TryOn.SelectThenRemove | frontend/app/try-on/page.tsx:87-103 | Removing a type right after selecting a garment of that type gives the same list as removing it without selecting. |
| TryOn.ImageOfTypeIsFirst | frontend/app/try-on/page.tsx:119-120 | The image sent for a type is that of the first selected garment of the type. It is null exactly when there is none or its image is empty. |
| TryOn.BuildPayload | frontend/app/try-on/page.tsx:116-123 | The unified webhook payload. PayloadContents states its contents. |
| TryOn.PayloadContents | frontend/app/try-on/page.tsx:116-123 | The payload carries the user image and the full selection. Its upper-body and lower-body images are those of the first garment of each type, or null. |
| TryOn.FirstTruthyIsFirst | frontend/app/try-on/page.tsx:142-159 | The search result is null exactly when no candidate is truthy. Otherwise it is the truthy candidate that comes before every other truthy one. |
| TryOn.ResultImage | frontend/app/try-on/page.tsx:142-159 | The if/else chain that looks for the generated image. ResultImageIsFirstTruthy states which value it yields. |
| TryOn.ResultImageIsFirstTruthy | frontend/app/try-on/page.tsx:142-159 | The if/else chain yields the first truthy value of `result_image`, `image_url`, `generated_image`, `output_image`, `try_on_result`, `data.image`, `result.image`, in that order. |
| TryOn.ReportWithoutImage | frontend/app/try-on/page.tsx:165-177 | Without an image, the first applicable case wins: `success`, then `status === "processing"`, then `error` (which goes to the error field), then `message`, then the default status. Only the error or the status changes. |
| TryOn.BeginTryOn | frontend/app/try-on/page.tsx:105-123 | Without a user image or garments nothing happens. Otherwise processing starts, the previous status, error, response and result are cleared, and exactly one payload is sent. |
| TryOn.InterpretReply | frontend/app/try-on/page.tsx:138-177 | A found image becomes the result with the success status. Otherwise the report without an image applies. A null body fails on its first property read. |
| TryOn.FinishTryOn | frontend/app/try-on/page.tsx:126-193 | Processing always ends, and the image, the selection and the sent requests are kept. A non-ok status only sets the error to `Webhook failed: <status>`. A throw only sets the error to its message, or the default when the message is empty. Only a body is stored and interpreted. |
| TryOn.ClickTryOn | frontend/app/try-on/page.tsx:391-400 | Without a user image only the missing-image error is set, even when no garment is selected. With an image but no garment only the missing-garment error is set. Otherwise the request begins. Exactly one request is sent when the click gets past both checks, and none otherwise. |
| TryOn.Disabled | frontend/app/try-on/page.tsx:401 | The button is disabled without an image, without garments, or while processing. EnabledClickBegins, UploadSuccessEnablesTryOn and Reset state when it is. |
| TryOn.EnabledClickBegins | frontend/app/try-on/page.tsx:390-402 | When the button is enabled, its click begins a request. The missing-image and missing-garment messages cannot appear through the button. |
| TryOn.RequestRoundTrip | frontend/app/try-on/page.tsx:105-193 | A begun and finished request leaves processing off and has sent exactly one payload, built from the state at the click. |
| TryOn.UploadImage | frontend/app/try-on/page.tsx:50-84 | Without a file nothing happens. A reply with a truthy `url` sets the user image and clears the error and result; with an empty selection it preselects the first catalog garment. Any failure shows the error message and uses the local preview. |
| TryOn.UploadFailure | frontend/app/try-on/page.tsx:59-66 | The thrown message is `Upload failed: <status>` for a non-ok status, the reply's `error`, or `No URL returned from upload`. A null body gives the runtime's property-read message. |
| TryOn.UploadErrorNeverEmpty | frontend/app/try-on/page.tsx:74-76 | A failed upload always shows a non-empty error string. |
| TryOn.UploadSuccessEnablesTryOn | frontend/app/try-on/page.tsx:71-73 | After a successful upload, only processing can keep the try-on button disabled. |
| TryOn.Reset | frontend/app/try-on/page.tsx:241-248 | Clears the user image, the selection and the result, and nothing else, which disables the button. |
| TryOn.TryOnPage.constructor | frontend/app/try-on/page.tsx:33-48 | Starts with no image, no garments, not processing, and no result, response, error or status. |
| TryOn.TryOnPage.HandleGarmentSelection | frontend/app/try-on/page.tsx:87-99 | Copying into an array and overwriting the found slot yields exactly SelectGarment's list. |
| TryOn.TryOnPage.RemoveGarment | frontend/app/try-on/page.tsx:101-103 | Only the selection changes, to RemoveType's list. |
| TryOn.TryOnPage.OnTryOnClick | frontend/app/try-on/page.tsx:391-401 | Reports a missing image before missing garments, and otherwise begins the request. `started` is true exactly when a request went out. |
| TryOn.TryOnPage.ReceiveWebhookReply | frontend/app/try-on/page.tsx:126-193 | The statement-by-statement handler yields exactly FinishTryOn's state. |
| TryOn.TryOnPage.HandleImageUpload | frontend/app/try-on/page.tsx:50-84 | The handler yields exactly UploadImage's state. |
| TryOn.TryOnPage.ClearUserImage | frontend/app/try-on/page.tsx:277 | Only the user image is cleared. |
| TryOn.TryOnPage.ResetTryOn | frontend/app/try-on/page.tsx:241-248 | The handler yields exactly Reset's state. |
| Products.Distinct | frontend/app/products/page.tsx:140 | Keeps exactly the values of the input, each once. |
| Products.DistinctKeepsFirstOccurrenceOrder | frontend/app/products/page.tsx:140 | Distinct values come in order of first appearance, as a `Set` iterates. |
| Products.Categories | frontend/app/products/page.tsx:140 | The list is `"all"` followed by each category of the catalog exactly once. |
| Products.CatalogCategories | frontend/app/products/page.tsx:28-140 | For the page's catalog the list is all, Jackets, Dresses, Shoes, Accessories, Tops, Bottoms, Outerwear. |
| Products.OfCategory | frontend/app/products/page.tsx:146-148 | Every product kept has exactly the chosen category. |
| Products.InPriceRange | frontend/app/products/page.tsx:151 | Every product kept satisfies low ≤ price ≤ high, bounds inclusive. |
| Products.Passing | frontend/app/products/page.tsx:143-151 | The catalog products passing both filters. PassingKeepsExactlyThePassing states which they are and how often. |
| Products.PassingKeepsExactlyThePassing | frontend/app/products/page.tsx:143-151 | The filtered list holds every product that passes both filters, as often as the catalog does, and no other. |
| Products.FiltersCompose | frontend/app/products/page.tsx:143-151 | The category filter, skipped for `"all"`, then the price filter, equals the single combined filter. |
| Products.PriceFilterAlone | frontend/app/products/page.tsx:146-151 | With category `"all"` only the price filter applies. |
| Products.BothFilters | frontend/app/products/page.tsx:146-151 | With a concrete category, both filters in sequence equal the combined filter. |
| Products.DefaultFiltersKeepCatalog | frontend/app/products/page.tsx:136-151 | The default filters, all categories and 0 to 300, keep the whole catalog. |
| Products.CatalogPricesInRange | frontend/app/products/page.tsx:28-137 | Every catalog price lies within the slider's range. |
| Products.PassingAll | frontend/app/products/page.tsx:151 | A price range covering every product keeps the list unchanged. |
| Products.OrderOf | frontend/app/products/page.tsx:154-170 | The four named sort modes select their orders. Any other value, `featured` included, means no sort. |
| Products.FeaturedSortsNothing | frontend/app/products/page.tsx:167-169 | `featured` keeps catalog order. |
| Products.Swap | frontend/app/products/page.tsx:156-165 | Exchanges two adjacent slots, so the array's contents are a permutation of the old ones. |
| Products.InsertAt | frontend/app/products/page.tsx:156-165 | Moving element i into a sorted prefix leaves a sorted prefix one longer, as a permutation, with every slot after i untouched. |
| Products.SortInPlace | frontend/app/products/page.tsx:156-165 | The in-place sort leaves the array sorted by the order's key and a permutation of its old contents. |
| Products.FilterAndSort | frontend/app/products/page.tsx:142-173 | The listing is a permutation of exactly the catalog products that pass both filters. It is sorted by the chosen order, or is in catalog order for `featured`. |
| Products.SortedCopy | frontend/app/products/page.tsx:154-170 | Sorting a copy gives a sorted permutation of the list. |
| Products.SortOrders | frontend/app/products/page.tsx:155-166 | `price-low` gives non-decreasing prices and `price-high` non-increasing ones. `rating` gives non-increasing ratings. `newest` puts every new product before every other. |
| Products.ClearedListingIsWholeCatalog | frontend/app/products/page.tsx:307-311 | After clearing the filters the listing holds every catalog product once, whatever the order. |
| Products.DefaultListingIsCatalog | frontend/app/products/page.tsx:134-173 | With the default order and filters the listing is the catalog itself. |
| Products.ProductsPage.constructor | frontend/app/products/page.tsx:133-173 | Starts with `featured`, all categories, 0 to 300 and the filter panel hidden, and the listing agrees with them. |
| Products.ProductsPage.Refresh | frontend/app/products/page.tsx:142-173 | The effect makes the listing agree with the current order and filters, which it leaves unchanged. |
| Products.ProductsPage.SetSortBy | frontend/app/products/page.tsx:225 | A new order, with the listing re-derived and the filters and the panel's visibility kept. |
| Products.ProductsPage.SetCategoryFilter | frontend/app/products/page.tsx:186 | A new category, with the listing re-derived and the order, the range and the panel's visibility kept. |
| Products.ProductsPage.SetPriceRange | frontend/app/products/page.tsx:205 | A new range, with the listing re-derived and the order, the category and the panel's visibility kept. |
| Products.ProductsPage.ClearFilters | frontend/app/products/page.tsx:307-311 | Resets the category and range to their defaults and re-derives the listing, keeping the order and the panel's visibility. |
| Products.ProductsPage.ToggleFilters | frontend/app/products/page.tsx:220 | Only the panel's visibility flips. |
| UploadRoute.LastSegment | frontend/app/api/upload/route.ts:21 | `split(".").pop()` is the suffix after the last dot, contains no dot, and is the whole name when there is no dot. |
| UploadRoute.AsciiLower | frontend/app/api/upload/route.ts:21 | An ASCII capital becomes the small letter at the same place in the alphabet. Any other character is unchanged. So a letter or digit maps into `[a-z0-9]`. |
| UploadRoute.LowerChar | frontend/app/api/upload/route.ts:21 | A character other than U+0130 and U+212A lower-cases to its ASCII lower case alone. U+0130 gives `i` and U+0307, and U+212A gives `k`. No ASCII capital results. |
| UploadRoute.ToLower | frontend/app/api/upload/route.ts:21 | The result holds no ASCII capital and is never shorter than the input. Without U+0130 and U+212A it has the input's length, and each position holds the ASCII lower case of the input's character. |
| UploadRoute.ToLowerConcat | frontend/app/api/upload/route.ts:21 | Lower-casing works character by character: two pieces give their results in sequence. |
| UploadRoute.KeepAlnum | frontend/app/api/upload/route.ts:22 | The case-insensitive strip is never longer than its input. It keeps only ASCII letters and digits, and a character occurs in it exactly when it is a letter or digit of the input. Without capitals in the input it holds only `[a-z0-9]`. |
| UploadRoute.KeepAlnumConcat | frontend/app/api/upload/route.ts:22 | The strip works character by character, so it keeps order: two pieces give their results in sequence. |
| UploadRoute.LowerThenStrip | frontend/app/api/upload/route.ts:21-22 | Without U+0130 and U+212A, lower-casing then stripping equals stripping then lower-casing. |
| UploadRoute.Extension | frontend/app/api/upload/route.ts:20-21 | `ext` holds no ASCII capital. It is the lower case of the last segment when the name and that segment are non-empty, and `png` otherwise. |
| UploadRoute.SafeExt | frontend/app/api/upload/route.ts:20-22 | `safeExt` is non-empty, contains only `[a-z0-9]`, and so contains no dot. |
| UploadRoute.SafeExtensionKept | frontend/app/api/upload/route.ts:20-22 | A name ending in a dot and an already safe extension keeps exactly that extension. |
| UploadRoute.LastSegmentAfterDot | frontend/app/api/upload/route.ts:21 | The last segment of a name whose final dot is followed by dot-free text is that text. |
| UploadRoute.EmptyNameIsPng | frontend/app/api/upload/route.ts:20-22 | An empty name is treated as `upload.png`, so its extension is `png`. |
| UploadRoute.TrailingDotIsPng | frontend/app/api/upload/route.ts:21-22 | A name ending in a dot has an empty last segment, so its extension is `png`. |
| UploadRoute.NothingSafeIsPng | frontend/app/api/upload/route.ts:22 | A name none of whose characters survives stripping falls back to `png`. |
| UploadRoute.SafeExtBySegment | frontend/app/api/upload/route.ts:20-22 | After a dot followed by a dot-free segment, `safeExt` is the segment lower-cased and stripped, or `png` when nothing is left. An empty segment is included. |
| UploadRoute.SafeExtOfSegment | frontend/app/api/upload/route.ts:20-22 | For such a segment without U+0130 and U+212A, `safeExt` is the ASCII lower case of the segment's letters and digits in order, or `png` when it has none. |
| UploadRoute.SafeExtOfAlnum | frontend/app/api/upload/route.ts:20-22 | A last segment of ASCII letters and digits is kept whole, each character lower-cased. |
| UploadRoute.SegmentStrippedIsPng | frontend/app/api/upload/route.ts:20-22 | When only the last segment is made of characters that do not survive stripping, as in `photo.@@`, the extension is `png`, whatever comes before the dot. |
| UploadRoute.UpperExtensionExample | frontend/app/api/upload/route.ts:20-22 | `x.JPG` has the safe extension `jpg`. |
| UploadRoute.NoSafeCharExample | frontend/app/api/upload/route.ts:20-22 | `photo.@@` has the safe extension `png`. |
| UploadRoute.Hex | frontend/app/api/upload/route.ts:24 | Hex encoding gives two lower-case hex digits per byte. |
| UploadRoute.FileName | frontend/app/api/upload/route.ts:24 | `<timestamp>-<hex>.<safeExt>`. FileNameShape states the shape and what can be read back from it. |
| UploadRoute.FileNameShape | frontend/app/api/upload/route.ts:24 | The file name is `<timestamp>-<hex>.<safeExt>`, and its last dot-separated segment is the safe extension. |
| UploadRoute.Stored | frontend/app/api/upload/route.ts:32-35 | The public path is `/uploads/` plus the file name. The URL is the app URL prefix, or `""`, followed by the path. The size is the byte count. |
| UploadRoute.Handle | frontend/app/api/upload/route.ts:8-38 | A missing or empty `file` field gives 400 with the missing-file message. An unparsable body, a text field or a failed write gives 500 `Upload failed` with the error's text. Otherwise the file is stored under its generated name. |
| UploadRoute.SavedResponseShape | frontend/app/api/upload/route.ts:13-35 | A saved reply comes only from a file field whose write succeeded. Its status is 200 and its path is `/uploads/<name>`. The URL ends with the path, the size is the file's byte length, and the name ends in the safe extension of the uploaded name. |
| AgentTools.LoadProductsDetails | backend/adk-streaming/app/product_search_agent/tools.py:107-114 | Status `ok`, and the catalog returned unchanged. |
| AgentTools.FormatProductResponse | backend/adk-streaming/app/product_search_agent/tools.py:117-137 | Status is always `ok`. |
| AgentTools.FormatProductResponseContents | backend/adk-streaming/app/product_search_agent/tools.py:127-136 | One `{name, price}` entry per catalog item whose id was requested, and nothing else, so never more entries than the catalog has. |
| AgentTools.Summarize | backend/adk-streaming/app/product_search_agent/tools.py:130-133 | The `{name, price}` entry of one item. SelectMembers states that every output entry is one of these. |
| AgentTools.Select | backend/adk-streaming/app/product_search_agent/tools.py:129-136 | The comprehension over the catalog. SelectMembers, SelectBound, SelectConcat and SelectDependsOnIdSet state its contents, size, order and dependence on the ids. |
| AgentTools.SelectMembers | backend/adk-streaming/app/product_search_agent/tools.py:129-136 | Over any catalog, an entry is in the output exactly when it summarises a catalog item whose id was requested. |
| AgentTools.SelectBound | backend/adk-streaming/app/product_search_agent/tools.py:129-136 | At most one entry per catalog item. |
| AgentTools.SelectConcat | backend/adk-streaming/app/product_search_agent/tools.py:133-135 | The output follows catalog order: selecting from two halves gives the first half's entries, then the second's. |
| AgentTools.SelectDependsOnIdSet | backend/adk-streaming/app/product_search_agent/tools.py:135 | Only the set of requested ids matters, not their order or repetition. |
| AgentTools.UnknownIdsIgnored | backend/adk-streaming/app/product_search_agent/tools.py:127-136 | Ids that name no catalog item change nothing, and a request of only such ids gives an empty list. |
| AgentTools.RequestShapes | backend/adk-streaming/app/product_search_agent/tools.py:117-137 | The empty request gives an empty list. A duplicated request or a reversed request gives the same list as the original. |
| ImageUpload.ChooseFile | frontend/app/components/ImageUpload.tsx:10-14 | Choosing sets the file, or none, and clears the image URL and the error. |
| ImageUpload.BeginUpload | frontend/app/components/ImageUpload.tsx:16-19 | Without a file nothing happens. Otherwise loading starts and the error is cleared. |
| ImageUpload.FinishUpload | frontend/app/components/ImageUpload.tsx:22-37 | Loading always ends. A truthy `url` becomes the image. Otherwise the error is `data.error`, or `Upload failed` when that is falsy. A throw, or a null or undefined body, gives `Upload failed`. |
| ImageUpload.Disabled | frontend/app/components/ImageUpload.tsx:61 | The button is disabled without a file or while loading. AttemptDisablesButton and AttemptEndsVisibly state when. |
| ImageUpload.AttemptDisablesButton | frontend/app/components/ImageUpload.tsx:16-19 | During an attempt the button is disabled. Loading starts only when there is a file. |
| ImageUpload.AttemptEndsVisibly | frontend/app/components/ImageUpload.tsx:16-61 | After an attempt loading is off and the button is enabled. Either the image shows with no error, or an error shows. An error shows exactly when the reply had no truthy `url`. |
| ImageUpload.ChoosingAgainClears | frontend/app/components/ImageUpload.tsx:10-37 | Choosing a file after any attempt returns to the initial state with that file. |
| ImageUpload.Uploader.constructor | frontend/app/components/ImageUpload.tsx:4-7 | No file, empty URL and error, not loading. |
| ImageUpload.Uploader.HandleFileChange | frontend/app/components/ImageUpload.tsx:10-14 | The handler yields exactly ChooseFile's state. |
| ImageUpload.Uploader.StartUpload | frontend/app/components/ImageUpload.tsx:16-19 | The handler yields exactly BeginUpload's state. `started` is true exactly when there was a file. |
| ImageUpload.Uploader.EndUpload | frontend/app/components/ImageUpload.tsx:22-37 | The handler yields exactly FinishUpload's state. |

## Left out

- The EventSource connection, its URL and the one-second reconnect timer are network I/O and a timer. Only the `connected` and `sendEnabled` flags are modelled. The cleanup closures capture the first render's null `eventSource`, so the code gives no disconnect-suppresses-reconnect guarantee and none is stated.
- Toggling audio mode only re-runs the connection effect.
- `sendMessage` in the chat context is a POST whose outcome is only logged.
- Audio capture, batching and the playback worklet are outside the model. Playback is a recorded sequence of posted messages.
- `atob` is the browser's base64 decoder from RFC 4648 section 4. It is a parameter.
- `fetch`, `res.json()`, `FileReader`, `localStorage`, `mkdir` and `writeFile` are external; their results are parameters or a small store object.
- The webhook proxy is a pure passthrough.
- The random session and user ids in the chat context, `Math.random()` in the widget, `Date.now()` and `crypto.randomBytes` are parameters or a counter.
- The widget's delayed canned assistant reply after an image pick and its simulated voice input are timer-driven demo behaviour.
- The try-on canvas preview, the download, and the two-second preview timers are drawing and DOM work.
- The try-on upload's fallback preview is taken as the `FileReader` result at the time the reply arrives. In the code it arrives asynchronously after the error is set.
- Prices and ratings are integer cents and tenths. Floating-point comparison is not modelled.
- JavaScript's sort is stable, and the model's insertion sort is stable too, but the sort contracts state only sortedness by the comparator's key and permutation, not the order among equal keys (for `newest`, the catalog order within the new and within the other products). Each of the following lines names a member with this gap.
- Products.SortInPlace: sorted and a permutation; the order among equal keys is not stated.
- Products.InsertAt: the order among equal keys within the sorted prefix is not stated.
- Products.SortedCopy: sorted and a permutation; the order among equal keys is not stated.
- Products.FilterAndSort: the listing is fixed only up to the order among equal keys.
- Products.ProductsPage.Valid: the listing agrees with the filters and order only up to the order among equal keys, and so do the page methods that ensure it.
- React batching, deferred state updaters and stale closures are not modelled. Each handler is one sequential step.
- The chat context's `isChatOpen`, `selectedProduct`, `isAudio` and `isColapsed` setters are plain assignments with no logic.
- Rendering and styling are not modelled.
- UploadRoute.LowerChar: `toLowerCase` is exact only for the characters whose lower-case form contains an ASCII letter or digit: ASCII capitals, U+0130 and U+212A. Other characters are kept as they are, which cannot change what the `[a-z0-9]` strip keeps.
- UploadRoute.Handle: the form parser is a parameter. Its failure message stands for `${err}` of whatever it threw.
- The random bytes are given as a sequence. The route always draws six.
- ChatContext.ChatProvider.SetPlayer: the audio player node is set by consumers of the context. The model records only whether it is present.
- JsValue numbers are integers. `NaN` is kept distinct, but fractional numbers and their string forms are not modelled.
