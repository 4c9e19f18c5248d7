# The enclave's stream translators, extractors and small protocols, in Dafny

This project models the parts of the enclave that keep state while bytes go by, and proves what they keep.

* **Stream translators.** `SseFraming` is the byte and line framing that `ResponsesToChatSse` and `MessagesToChatSse`
  share line for line, with the event handler as a parameter, and `SseWriting` the events a server writes.
  `BedrockStream` and `AnthropicStream` are the two translators as classes; `ChatFrames` is the client that folds the
  chat frames; `BedrockCollapsed` is the non-streaming form and `BedrockAgreement` shows when streaming means the
  same. `BedrockWire`, `BedrockObject` and `AnthropicWire` say what the events and the object mean by the members of
  their JSON, and `BedrockAgreement` and `AnthropicMeaning` that this is what the client ends with.
* **Request translators.** `AnthropicRequest`, `AnthropicBody`, `AnthropicMessages`, `AnthropicOptions` and
  `AnthropicTranslate` are `toMessagesRequest`: turns, alternation, cache marks, thinking budget, options.
  `BedrockRequest` is the conversation half of `toResponsesRequest`. `AnthropicWords`, `AnthropicMarks` and
  `BedrockWords` say, by the members of the messages and blocks, what a body must carry.
* **Bounded extractors.** `CostScan` is the brace scan over raw JSON text, `BoundedLines` the line assembly with its
  memory bound, `Cost` the extractor itself, `CostRows` what each figure comes from, `FirstToken` the first-token
  detector.
* **Protocols.** `KmsPolicy` and `KmsRotation` (the allow-list over stale reads), `Acme` and `AcmeOrder` (the order
  run), `ChainWalk` and `Renewal` (the renewal authority), `Ehbp` (framing), `BalanceBackoff` (a bounded map against
  an unbounded one), `Counters` (one outcome per request), `Cbor` (the signed structure).

Classes that the source updates in place are classes here; each method is proved against a function of the old
state, and the properties are lemmas about those functions over every input and every run. What a function reads off an
event, a message, a row or a name is stated a second time, as a predicate over the members of what it is given, and the
main results are stated over those predicates.

What is outside is a parameter, so every result holds for any choice of it: `JSON.parse`, `String(v)` and `Number(v)`
(`Js.Builtins`); the UTF-8 decoder, as any machine that reads bytes one at a time (`Decoding.Decoder`); the pattern for
image data URIs; the regular expressions that pick a field out of an unparsed line; `JSON.stringify`; the cipher, the signature checks,
the tools that mint certificates; the clock; each reply of a server; each version a policy read returns.

Where the code and what is said of it differ, the model follows the code:

* The streaming translator ignores refusals and content filters, and passes a call's name on as it is. It agrees with
  the collapsed form exactly when there is nothing of the kind (`BedrockAgreement.Streamable`).
* The cost extractor's comment says the BYOK flag it reports is the branch its cost came from; for a free model priced
  at nothing the cost is the minimum one and the flag may still be set (`Cost.ByokIsTheBranch`, with a row for which
  they differ in `Cost.FreeRowReportsByok`).
* A line past the bound is read from its windows only if some chunk ended inside it with more than the bound in hand;
  otherwise it is read whole (`BoundedLines.CutDecides`).
* The extractor's comment says an over-long line is read from its windows as it would be whole. A usage frame is exactly
  when the object read off its tail gives the frame's figures and its head names what the frame names
  (`Cost.WindowsReadAsWhole`); so not where other members behind the usage fill the tail (`Cost.FiguresLost`).
* The collapsed form's comment says its model is that of the streaming usage frame; the two differ where the response
  names an empty model, or none while another was announced (`BedrockAgreement.OneModel`).
* A grant that reads a stale policy lists again what was pruned since (`KmsRotation.GrantAddsOnlyItsOwn`, with such a
  history in `KmsRotation.StaleGrantListsAgain`).
* The renewal authority compares comma-joined names, so lists are the same to it exactly when they split into the same
  names (`Renewal.SameNamesIsSamePieces`). A name holding a comma would be taken for two
  (`Renewal.CommaIsTakenForTwo`), but none reaches it: the
  server splits its configured names on commas (enclave/src/server.mjs:6322, 6583).
* `cborHead` wraps a length past 32 bits (`Cbor.HeadReadsBack`).

## Model

| member | source | states |
|---|---|---|
| SseFraming.ChunkIndependence | enclave/src/bedrock.mjs:523-548 | Two ways of cutting the same bytes, inside a character, a CRLF or an event, give the client the same frames. |
| SseFraming.OneEnding | enclave/src/bedrock.mjs:523-548 | A handler that ends at most once and falls silent then gives every stream exactly one terminal frame, the last. |
| SseFraming.TranscriptIsRun | enclave/src/bedrock.mjs:523-548 | What a client receives is the handler run over the event payloads of the decoded text, then the ending. |
| SseWriting.EventsReadBack | enclave/src/bedrock.mjs:527-546 | Events written with either line ending, named or of several data lines, are read back one payload for each, its lines put together. |
| BedrockStream.StreamEndsOnce | enclave/src/bedrock.mjs:682-687 | Every Responses stream, cut anywhere, is answered with exactly one `[DONE]` or one error, and nothing behind it. |
| BedrockStream.ResponsesToChatSse.EmitArgsSuffix | enclave/src/bedrock.mjs:514-521 | Sends just what is missing of the arguments when they extend what was sent, and nothing otherwise. |
| BedrockStream.ResponsesToChatSse.OnEvent | enclave/src/bedrock.mjs:559-680 | Updates the state in place and emits as the step function of the event says. |
| BedrockStream.ResponsesToChatSse.Drain | enclave/src/bedrock.mjs:530-546 | Consumes every complete line up to the ending and keeps the unfinished one. |
| BedrockStream.ResponsesToChatSse.Feed | enclave/src/bedrock.mjs:523-548 | One chunk in: the new state and the output are those of the framing specification. |
| BedrockAgreement.DoneCompletesOrKeeps | enclave/src/bedrock.mjs:514-521 | A done event makes the arguments exactly its own when they extend what was sent, and else leaves them alone. |
| BedrockAgreement.ArgumentsConserved | enclave/src/bedrock.mjs:564-612 | In every reachable state the fragments of each index concatenate to what is recorded as sent; indices are dense from 0 and announced first. |
| BedrockAgreement.StreamMeans | enclave/src/bedrock.mjs:550-680 | For every stream and every split of its bytes, by the members of the JSON events up to the one that ends it: the content is the text deltas; the calls are the announced items, with `call_id` or `id`, the name, and what their fragments and full strings, found by item or place, come to; the ending, finish reason, usage and model are those of the ending event, or an error where there is none. |
| BedrockAgreement.StreamingAgrees | enclave/src/bedrock.mjs:698-764 | For every response, every delivery of it as JSON events (its text cut anywhere, its calls under distinct identities, arguments in any pieces, interleaved), whatever follows the terminal one, and every split of the bytes, the folded stream is the collapsed completion exactly when the response is streamable; usage agrees whenever it is reported, and the model it names exactly when there is one model to name. |
| BedrockDelivery.EveryResponseIsDelivered | enclave/src/bedrock.mjs:452-468 | Every Responses object has such a delivery as JSON events. |
| BedrockCollapsed.ResponsesJsonToChatCompletion | enclave/src/bedrock.mjs:708-764 | Collapses a Responses object: all text, all refusals, all calls in order, one finish reason, usage, or an error. |
| BedrockObject.CollapseIsSaid | enclave/src/bedrock.mjs:708-764 | By the members of every object: the texts and the refusals of its message parts, its function calls with id, name and arguments, the finish reason its status and calls give, its usage and its model; refused exactly where it is no object, holds an error object or has failed. |
| BedrockCollapsed.ResponsesJsonToChat.Feed | enclave/src/bedrock.mjs:790-800 | Keeps the body up to the cap and nothing once it is over. |
| BedrockCollapsed.ResponsesJsonToChat.Finish | enclave/src/bedrock.mjs:801-823 | Answers once, with the completion of the concatenated body or the error that fits. |
| BedrockRequest.CanonicalIsUnique | enclave/src/bedrock.mjs:116-122 | What a turn says has one cut into items without empty or neighbouring texts. |
| BedrockRequest.UserContentToItems | enclave/src/bedrock.mjs:123-151 | Gives that cut of what the content says, and refuses exactly the contents of no known shape. |
| BedrockRequest.ToInput | enclave/src/bedrock.mjs:170-221 | The input says what the conversation says, with one turn for each message that says something, each cut the canonical way, calls and results between, in order; refused for the first unclear message or for saying nothing. |
| BedrockWords.ConversationIs | enclave/src/bedrock.mjs:123-221 | What a conversation says, by the members of its messages: the texts and images of each content, each call with its id, name and arguments, each tool result with its call; unclear exactly where some message is, for the field of the first. |
| AnthropicStream.StreamEndsOnce | enclave/src/anthropic.mjs:690-712 | Every Messages stream, cut anywhere, is answered with exactly one `[DONE]` or one error, and nothing behind it. |
| AnthropicStream.MessagesToChatSse.OnEvent | enclave/src/anthropic.mjs:714-825 | Updates the state in place and emits as the step function of the event says. |
| AnthropicStream.MessagesToChatSse.Feed | enclave/src/anthropic.mjs:690-712 | One chunk in: the new state and the output are those of the framing specification. |
| AnthropicMeaning.RunAccumulates | enclave/src/anthropic.mjs:714-825 | From any reachable state, the client comes to hold the text of the events read, and call i with the id and name of the i-th announcement and, for arguments, just the fragments whose block stood for it when they came. |
| AnthropicMeaning.HoldsStep | enclave/src/anthropic.mjs:778-794 | The stop reason, each count and the model held are those of the last event whose members set them. |
| AnthropicMeaning.StreamMeans | enclave/src/anthropic.mjs:714-825 | For every stream and every split of its bytes, by the members of the JSON events up to the one that ends it: all its text, each call as announced and spelt, the finish reason its last stop reason stands for, the usage last reported and the model, or the error that fits; what follows is ignored. |
| AnthropicRequest.ContentToBlocks | enclave/src/anthropic.mjs:201-250 | The loop over content parts computes the blocks part by part, and refuses at the first part of no known shape. |
| AnthropicRequest.HoistMarks | enclave/src/anthropic.mjs:361-369 | Takes the marks off nested blocks and returns the last of them. |
| AnthropicRequest.ReadMessages | enclave/src/anthropic.mjs:275-390 | The loop over messages computes the translation of the conversation. |
| AnthropicWords.ConversationIsSaid | enclave/src/anthropic.mjs:200-390 | By the members of each message of an expressible conversation: a text or image part is a block with its own text, media type and data; a call is a `tool_use` with its id, its name and as input just what its arguments parse to, or `{}` exactly where they are absent or blank; a tool message is a user turn with one `tool_result` for its `tool_call_id`, holding its content. |
| AnthropicRequest.ConverseExact | enclave/src/anthropic.mjs:271-390 | Accepted exactly when every message can be expressed where it stands; `system` is the leading system run, the turns are the others one by one. |
| AnthropicBody.MergeTurns | enclave/src/anthropic.mjs:395-401 | Messages alternate strictly, none is empty, and they say every block of the turns in order. |
| AnthropicBody.AlternationUnique | enclave/src/anthropic.mjs:392-401 | There is one way to alternate the same words. |
| AnthropicBody.CapMarks | enclave/src/anthropic.mjs:534-553 | Deletes marks only: every block is as it was or without its mark, which it keeps exactly where it stands among the first of the system's or the last of the turns'; where no more than four are set nothing changes. |
| AnthropicBody.CapExact | enclave/src/anthropic.mjs:534-553 | Exactly min(4, total) survive: the first min(4, s) of the system's, and the last turn marks that still fit. |
| AnthropicBody.KeepPositions | enclave/src/anthropic.mjs:542-553 | Deleting every mark outside a window of the marked positions leaves just the window marked. |
| AnthropicMessages.ChooseTargets | enclave/src/routing.mjs:345-365 | At most three different turns: the first, the last two user turns and the tail that can host a mark, less the earlier anchor over budget. |
| AnthropicMessages.AddCachePromptMarks | enclave/src/routing.mjs:331-368 | Adds marks only, at most three, one to each chosen turn; nothing where the caller set one. |
| AnthropicMarks.MarksAreThere | enclave/src/routing.mjs:331-368 | By the members of the turns: those to mark are the first turn if it can host a mark, the last two user turns that can and the last turn of all that can, the earlier of the two giving way where that makes four; each carries one ephemeral mark on its last block that may bear it, and no other turn changes. |
| AnthropicTranslate.CarveThinking | enclave/src/anthropic.mjs:406-468 | The budget fits under max_tokens with room for the answer; a client's own limit is never moved; thinking is on exactly when a fitting budget exists. |
| AnthropicOptions.ReadTools | enclave/src/anthropic.mjs:486-500 | One tool for each, in order, or refused for one that is not a named function. |
| AnthropicOptions.ReadOptions | enclave/src/anthropic.mjs:469-523 | Accepted exactly when each option has a shape the API takes, with what it says; refused for the first that has not. |
| AnthropicTranslate.ToMessagesRequest | enclave/src/anthropic.mjs:256-562 | Accepts exactly the expressible requests, and refuses any other for the first key, message or option that is not so; the body alternates from the user on, each of its turns says what its messages do by their members, nests no marks and has at most four: the caller's own as the cap keeps them, or where the caller set none, ours on the turns to mark; options, sampling and thinking are what the request's members ask for. |
| CostScan.ScanFrom | enclave/src/cost.mjs:134-150 | The loop over depth and string state computes the scan. |
| CostScan.ScanExact | enclave/src/cost.mjs:129-152 | Started on an object's opening brace, with any nesting and any strings, the scan stops on that object's closing brace whatever follows. |
| CostScan.RenderedScan | enclave/src/cost.mjs:129-152 | The same for every object value as JSON prints it. |
| CostScan.MatchEndsString | enclave/src/cost.mjs:124-133 | In a JSON line cut anywhere, at its front and at its end, the closing quote of a matched `"usage"` ends a string: the match is never inside one. |
| CostScan.UsageIsWholeObject | enclave/src/cost.mjs:129-152 | What is read of a line cut at its front and at its end is the whole object that its last match opens; nothing is read exactly where nothing matches or that object is cut off before its end. |
| CostScan.LastUsage | enclave/src/cost.mjs:129-152 | The search and the scan give the object behind the last match. |
| BoundedLines.ExtractionIsFold | enclave/src/cost.mjs:182-224 | For every split of a stream whose lines fit, the result is the fold of the line reader over the lines. |
| BoundedLines.CutDecides | enclave/src/cost.mjs:195-200 | For any stream in any number of chunks, each line is read from its windows exactly when a chunk ended inside it with more than the bound in hand, and whole otherwise. |
| BoundedLines.WindowIs | enclave/src/cost.mjs:195-204 | The windows of a line are its first and its last 65,536 characters, or the whole of it where it is no longer. |
| BoundedLines.LastAppend | enclave/src/cost.mjs:202-204 | Keeping the last characters as text arrives keeps the last characters of the whole line. |
| Cost.CostExtractor.KeepTail | enclave/src/cost.mjs:202-204 | The window keeps the line's first and last 65,536 characters. |
| Cost.CostExtractor.EndLongLine | enclave/src/cost.mjs:207-224 | An over-long line is read from its windows: its usage object with the head's fields, or the head alone. |
| Cost.CostExtractor.Feed | enclave/src/cost.mjs:182-200 | One chunk in: the lines completed are read in order, and an over-long one becomes its windows. |
| Cost.CostExtractor.Finish | enclave/src/cost.mjs:266-271 | Reads what is left, and returns the result. |
| Cost.CostExtractor.Bounded | enclave/src/cost.mjs:116-121 | No more than 1,000,000 characters are held between calls. |
| CostRows.RowIsSaid | enclave/src/cost.mjs:18-114 | The figures of every usage frame by its members: chat token counts, else the others; the minimum cost where it is free, the upstream cost where that was paid, and else `total_cost`, or `cost` where that is falsy; each cache and reasoning count that of the first member present. |
| CostRows.LineIsSaid | enclave/src/cost.mjs:18-114 | A line reports a frame exactly when it mentions usage and parses to JSON with it: its own, its response's, or the names of a message's start. |
| CostRows.ResultIsReported | enclave/src/cost.mjs:226-264 | Over any lines each figure of the result is that of the last frame to report it; the generation is the first given, the model the last a frame names, else the first seen. |
| CostRows.StreamIsReported | enclave/src/cost.mjs:182-271 | So is the result of the extractor for every split of a stream whose lines fit. |
| Cost.ByokIsTheBranch | enclave/src/cost.mjs:26-77 | A row reported as BYOK is charged the upstream cost, however numbers are read, exactly unless it is a free row. |
| Cost.FreeRowReportsByok | enclave/src/cost.mjs:26-47 | A free row that reports the flag and an upstream cost of one is charged its tokens' minimum. |
| Cost.WindowsReadAsWhole | enclave/src/cost.mjs:206-224 | An over-long usage frame is read from its windows as it is whole, for every result, exactly when they report its figures and its names. |
| Cost.HeadDecides | enclave/src/cost.mjs:206-224 | Where the last match in the tail opens the frame's own usage object, whole, that is exactly when the head names its model, generation and provider. |
| Cost.FiguresLost | enclave/src/cost.mjs:206-224 | Where the tail has no object to read and the head is no frame by itself, some result comes out otherwise than the whole line would leave it. |
| Cost.GenerationKept | enclave/src/cost.mjs:226-264 | A generation id once read is never replaced. |
| Cost.FreeStaysFree | enclave/src/cost.mjs:263-263 | For a free model the total cost stays zero over every line. |
| FirstToken.ChatKindOf | enclave/src/firstToken.mjs:76-86 | The first choice that carries text decides; a tool call counts only where none does, and nothing is answered only where no choice carries either. |
| FirstToken.KindIs | enclave/src/firstToken.mjs:60-133 | What any line carries, by the members of the JSON of a data line: chat choices, or the text, thinking, tool and reasoning events of the other two dialects. |
| FirstToken.FirstTokenDetector.Feed | enclave/src/firstToken.mjs:148-168 | One chunk in: the first kind among the lines it completes, after which nothing is held. |
| FirstToken.DetectsFirst | enclave/src/firstToken.mjs:135-174 | For every stream and every split a kind is answered at most once, that of the first line carrying any; and none exactly where no line carries any, or before such a line a chunk ended with more of a line in hand than is held. |
| KmsPolicy.SetThenRead | scripts/kms-pcr0-allow.py:142-151 | Writing the list is what is read next, and changes nothing else in the document. |
| KmsPolicy.CurrentListIs | scripts/kms-pcr0-allow.py:94-107 | The list read is what the first statement of the allow kind names under the first of its conditions that has the attestation key, in lower case, one string being one entry; empty where no condition has the key, and none where there is no such statement. |
| KmsPolicy.RepairableIs | scripts/kms-pcr0-allow.py:154-158 | A policy is put exactly when the provisioner's own statement and the one that denies decryption without attestation both stand in it. |
| KmsRotation.KeyStore.RereadUntilPresent | scripts/kms-pcr0-allow.py:110-139 | At most twelve re-reads, ending at the first that lists all that is needed. |
| KmsRotation.KeyStore.Run | scripts/kms-pcr0-allow.py:183-250 | One run of the script: which reads it settles on, what it writes, and the verdict of reading back. |
| KmsRotation.DecideIsPlanned | scripts/kms-pcr0-allow.py:188-242 | What a command writes: a grant the list and its own entry; a prune to given entries just those, each once, in the order first named, refused exactly where the list lacks one; a prune to the running one it, and the first other listed where one is kept for rollback. |
| KmsRotation.ReadBackIs | scripts/kms-pcr0-allow.py:244-250 | Reading back is a match exactly when every entry is listed as often as it was written. |
| KmsRotation.RunsAreSound | scripts/kms-pcr0-allow.py:183-250 | Over every run of commands and every choice of stale reads, nothing is listed that was not at the start or granted, and all else stays in place. |
| KmsRotation.RotationIsExact | scripts/kms-pcr0-allow.py:191-242 | Granting a measurement never listed and then pruning leaves exactly it and the first entry the grant read, however often repeated and whatever the reads return. |
| KmsRotation.GrantAddsOnlyItsOwn | scripts/kms-pcr0-allow.py:191-192 | Whatever it reads, a grant adds only its own entry to the list in force, exactly when every version it could write from lists the entries in force. |
| KmsRotation.StaleGrantListsAgain | scripts/kms-pcr0-allow.py:191-192 | Where two were listed and one was pruned, a grant of a third that still reads both lists the pruned one again, whatever the three are. |
| KmsRotation.KeepsARollback | scripts/kms-pcr0-allow.py:193-213 | Keeping the previous one never collapses to a single entry while another is listed, as naming the running one twice does. |
| Acme.AcmeClient.TakeNonce | enclave/src/acme.mjs:222-231 | Gives a nonce no request has used, and lets it go. |
| Acme.AcmeClient.Send | enclave/src/acme.mjs:233-248 | Sends one request under a fresh nonce and keeps the nonce of its reply. |
| Acme.AcmeClient.PollUntil | enclave/src/acme.mjs:319-328 | The first final answer within twenty reads, every read before it answered and not final; it fails only on an answer of no use or after twenty. |
| AcmeOrder.Runner.AcceptChallenge | enclave/src/acmeRunner.mjs:222-228 | An accept goes out only while its challenge is installed and its hook awaited. |
| AcmeOrder.Runner.Authorize | enclave/src/acmeRunner.mjs:215-250 | The challenge installed is minted for the `identifier.value` of the authorization it read, else the first name ordered, and for the token of the first challenge of its kind; the hook gets just that, the accept goes to that challenge's url, and whatever happens it is removed again; it fails only for want of a usable answer, a challenge, a certificate or a hook, or on an answer that is not valid. |
| AcmeOrder.Runner.ObtainCertificate | enclave/src/acmeRunner.mjs:183-270 | On every path no nonce is sent twice, every request after the registration is signed by the account's key id, every accept is sent while armed, nothing installed stays pending, and the challenge protocol is negotiated afterwards just for what else was pending. On success the order asked for the names given, the names armed are in order those of the authorizations the order lists, the request finalized is for those names, and the certificate is that of the last reply; it fails only for one of the reasons an order can. |
| ChainWalk.PathByIndex | enclave/src/acmeRunner.mjs:349-357 | A certification path, defined inductively, is a chain whose every link holds and whose last is anchored. |
| ChainWalk.VerifyChainToRoots | enclave/src/acmeRunner.mjs:339-359 | Accepts exactly the paths for server authentication through in-date authorities to a pinned root; else names the lowest bad link and why. |
| Renewal.Authority.BeginRenewalCsr | enclave/src/acmeRunner.mjs:313-327 | Hands out the pending request again inside its window, or a fresh one. |
| Renewal.Authority.CompleteRenewal | enclave/src/acmeRunner.mjs:369-400 | Installs, repeats or refuses as specified, and changes nothing unless it installs. |
| Renewal.EachKeyOnce | enclave/src/acmeRunner.mjs:298-400 | Over every run the keys installed are in the order generated, each at most once. |
| Renewal.CoversIs | enclave/src/acmeRunner.mjs:380-387 | The names are covered exactly when each is, in whatever case, one of the certificate's alternative names of kind DNS. |
| Renewal.InstallsWhatWasAsked | enclave/src/acmeRunner.mjs:369-400 | A fresh install is of a trusted, unexpired leaf over the pending key, listing every name a begin of the run asked for; all else changes nothing. |
| Renewal.InFlightInstalls | enclave/src/acmeRunner.mjs:304-327 | Begins for the same names inside the hour hand out the same request and later ones do not, and its certificate still installs. |
| Renewal.RepeatsLastInstall | enclave/src/acmeRunner.mjs:361-374 | The certificate installed last is answered with the same result until another is installed. |
| Renewal.SameNamesIsSamePieces | enclave/src/acmeRunner.mjs:316-322 | Two lists are taken to be the same exactly when they split at their commas into the same names. |
| Renewal.SameNamesIsEqual | enclave/src/acmeRunner.mjs:316-322 | For names without commas, as a split on commas leaves them, comparing joined names is comparing lists. |
| Ehbp.OpensWhatWasSealed | enclave/src/ehbp-server.mjs:143-158 | A body is tried exactly when it begins with a whole frame, and then just what that frame carries is opened. |
| Ehbp.ResponseEncryptor.Begin | enclave/src/ehbp-server.mjs:164-171 | The call takes the next sequence number before it waits. |
| Ehbp.ResponseEncryptor.End | enclave/src/ehbp-server.mjs:171-176 | The frame is the length of the ciphertext in four bytes, then the ciphertext. |
| Ehbp.FramesReadBack | enclave/src/ehbp-server.mjs:164-178 | A reader of length-prefixed frames gets the ciphertexts back one for one. |
| Ehbp.ReadOnlyFromFrames | enclave/src/ehbp-server.mjs:164-178 | No other bytes read as those ciphertexts. |
| Ehbp.CallsAreNumbered | enclave/src/ehbp-server.mjs:167-171 | Call k seals with number k however calls overlap, so no key meets a number twice. |
| Ehbp.ResponseReadsBack | enclave/src/ehbp-server.mjs:164-178 | Under any interleaving the response is read back as the chunks sealed under 0, 1, 2 and on. |
| BalanceBackoff.RetryAfterSeconds | enclave/src/balanceBackoff.mjs:70-78 | The header wins when it asks for a second or more, as a number or a numeral of up to six digits, then the body; what is answered is the whole seconds asked for, and 60 at most. |
| BalanceBackoff.Backoff.Remember | enclave/src/balanceBackoff.mjs:113-127 | Remembers a bounded window in place or last, sweeping and evicting only when full. |
| BalanceBackoff.Backoff.Lookup | enclave/src/balanceBackoff.mjs:134-144 | Answers from an open window, and drops a closed one. |
| BalanceBackoff.PutBounded | enclave/src/balanceBackoff.mjs:113-127 | Never more than 10,000 credentials, each once. |
| BalanceBackoff.DropsOnlyFirst | enclave/src/balanceBackoff.mjs:117-125 | An open window is dropped exactly when a new key comes while the map is full of open ones, and then only the first inserted. |
| BalanceBackoff.RemembersFor | enclave/src/balanceBackoff.mjs:96-127 | A usable credential and whole seconds from 1 to 60 open a window of so many; anything else changes nothing. |
| BalanceBackoff.TellsWhatIsLeft | enclave/src/balanceBackoff.mjs:134-144 | An open window answers with its body and the fewest whole seconds, one at least, that cover what is left; nothing else answers. |
| BalanceBackoff.StepRefines | enclave/src/balanceBackoff.mjs:96-144 | A local refusal is the unbounded map's; the seconds told are 1 to 60 and not less than what is left. |
| BalanceBackoff.CacheRefines | enclave/src/balanceBackoff.mjs:96-144 | Over every run with a clock that does not go back the cache answers as the unbounded map or not at all, and exactly as it while no more keys than the cap were remembered. |
| Counters.KeyOfIs | enclave/src/counters.mjs:32-37 | An outcome counts under its own name where that is a string of the characters and length names have, and else under `other`. |
| Counters.BumpAddsOne | enclave/src/counters.mjs:36-43 | The count it falls to grows by one, every other stays, and the map keeps to 64 keys. |
| Counters.OneOutcomePerRequest | enclave/src/counters.mjs:83-91 | Under any interleaving and repetition the outcomes sum to the requests finalized at least once, so to all exactly when all are. |
| Counters.CountsFirsts | enclave/src/counters.mjs:36-43 | While the names fit, each count is the number of first finalizations under that name. |
| Counters.GaugeIsBalance | enclave/src/counters.mjs:105-110 | The gauge is opened less closed exactly when no stream is closed before it is opened. |
| Counters.WorkerCounters.BeginRequest | enclave/src/counters.mjs:83-86 | Counts a request and hands back an unused finalizer. |
| Counters.WorkerCounters.Finalize | enclave/src/counters.mjs:86-91 | Records the first outcome and ignores every later call. |
| Cbor.ConcatBytes | client/browser-verify.mjs:60-66 | Fills one array with the parts in order. |
| Cbor.HexToBytes | client/browser-verify.mjs:50-54 | Fills the array two characters at a time: two hex digits are their number, a digit before anything else itself, one behind a space or a sign what `parseInt` makes of it, and no digit nought. |
| Cbor.BytesFromHex | client/browser-verify.mjs:48-54 | Every byte string comes back from its hex form. |
| Cbor.HexFromBytes | client/browser-verify.mjs:48-54 | A hex string comes back in lower case exactly when it is hex digits, two for each byte. |
| Cbor.HeadReadsBack | client/browser-verify.mjs:68-74 | A head is read back, whatever follows, exactly when the length fits in 32 bits. |
| Cbor.HeadIsShortest | client/browser-verify.mjs:68-74 | No encoding of the same head is shorter (section 4.2.1 of RFC 8949). |
| Cbor.EncodeSigStructure | client/browser-verify.mjs:81-90 | Concatenates the structure of section 4.4 of RFC 9052. |
| Cbor.SigStructureReadsBack | client/browser-verify.mjs:81-90 | A reader of an array of four, the text "Signature1" first and an empty string third, recovers the protected header and the payload. |
| Cbor.SigStructureIsInjective | client/browser-verify.mjs:81-90 | What is signed for one header and payload is signed for no other. |

## Left out

- The rest of `toResponsesRequest` besides the conversation: field names, limits, tools and options are tables of single checks like those modelled for the Messages API.
- The bytes of the frames a translator writes (`JSON.stringify`, ids, timestamps): frames are values.
- `TextDecoder` flushing at the end of a stream, and its byte-order mark: the decoder is any byte-by-byte machine.
- Characters: a string here is a sequence of Unicode characters, where the source counts UTF-16 units. It matters to the lengths of lines and windows, and to a window that would cut a surrogate pair in two.
- Numbers are reals: doubles' rounding, infinities and NaN are not modelled.
- Objects as `Map` keys: an object or array sent as a tool call's identity is taken as never found again, and is outside what a delivery may use.
- Block objects' identity: the cap deletes marks by position, so one block object pushed twice is not modelled.
- An upstream generation id that is not a string, which would make the cost extractor's line reader throw.
- `KmsRotation`: other writers of the policy, and the `aws` process failing; letters outside ASCII in `lower()`.
- `Acme.AcmeClient`: signing, and the request body beyond its kind; a reply is any sequence the server may give.
- `AcmeOrder.Runner.ObtainCertificate`: two orders at once over the same pending challenges, because each run owns the map while it is modelled.
- `Renewal.Authority.CompleteRenewal`: the reason given for a refusal; parsing certificates.
- `Ehbp`: the cipher and key derivation, the stored identity, and lenient hex in the request header.
- `BalanceBackoff`: hashing the presented credential; `clear()`, which is a test seam.
- `Counters`: the other totals and the timing buckets, which are plain sums.
- The server, eligibility, routing beyond the cache marks, TLS, sockets, child processes, and the verifier's certificate checks.
