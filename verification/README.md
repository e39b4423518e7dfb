# Companion Display Protocol, device side

A Dafny model of the firmware's half of the Companion Display Protocol (version 12), of the phone-side
framer and codecs it talks to, of the per-peer storage behind it, and of the translation blobs the
firmware reads its strings from. Verify with `dafny verify dfyconfig.toml`.

The parts, and what is proved of each:

- **Device** (`Device`, `DeviceFrames`, and in place `CompanionBle`). The BLE host task, the image writer
  task and the main loop act on one state. A handler that blocks in `xQueueSend` is cut there, so writer
  steps may come in between; an enqueue may time out, an open or a write may fail, a file may refuse to go,
  the link may drop. `Device` says what one step does, as functions; `CompanionBle` is the same thing as
  variables, buffers and loops, each method proved to leave the state its function gives. What follows is
  proved over `Run`, every sequence of steps, and so of the methods.
  - `WriteBehind`: a staged image is exactly the payloads accepted since its START.
  - `EndAccounting`: every accepted image END is answered once.
  - `SessionProofs`: one session a peer, bracketed notifications, content only from the foreground.
  - `Framer`, `Pushing`, `TextTransfer`, `TextRuns`: of a text that `push_field` sends over a link that loses,
    repeats and reorders, END hands on exactly the chunks that came in sequence, or drops it.
  - `ImageTransfer`, `ImageRuns`, `ImageBound`, `ImageSchedules`: of an image what is staged is a prefix, and
    exactly which images may be overrun; in order and with no fault it is staged whole, in every timing.
  - `Admission`, `SessionOutcomes`: who may have a slot at all, and what each session packet, a settled prompt and
    a lost link come to.
  - `TransferHistory`: what END says of an image, and which bytes of a list, an asset, a content id or a tag state
    it hands on, by the packets that came.
  - `StagingFiles`: no half image stays on the card, and one that is given up is aborted.
  - `Tenancy`, `StatusRouting`, `Filing`: who has a slot and who has the screen, read off what the phone was
    told; so whom a RENDER_STATUS reaches, and under whose name what is pushed is stored.
  - `Hello`: the HELLO checks admit exactly the client's encodings.
- **Lists** (`TodoDocument`, `TodoDocumentParser`, `TodoDiff`, `TodoDiffTable`, `ListStatePull`, `ListStore`).
  The document codec, the check-off diff as a sorted table and as two arrays changed in place, the paged
  pull, and storage that survives losing power between any two steps.
- **Declarations** (`UiDeclaration`; with the documents it shares `Grammar`).
- **Formats** (`Layouts`): every one of them byte by byte.
- **Timed machines** (`ConnPolicy`, `BatchModel`, over `Millis`, the wrapping 32-bit clock).
- **Peers and images** (`PeerIndex`, `ImageRing`).
- **Translations** (`I18nBlob`).

Bytes are integers below 256; `Wire` has the little-endian numbers and the sequence facts proofs cite one at a time.

## Where the code falls short of what is said of it

Each has a lemma with a concrete input; beside it stands the condition under which the promise does hold.

- An image of 65536 CHUNKs the device has room for: sequence numbers are 16 bits, so after a whole wrap a
  repeated first CHUNK is accepted again, and the file staged runs past the image
  (`ImageBound.OverrunFromPowerUp`). What is staged is always a prefix exactly for all other images
  (`ImageBound.StagesPrefixesIff`).
- A RENDER_STATUS is meant for the app that made the push (`src/CompanionBle.h:481`). One from the writer goes to
  whoever holds the screen by then, so it may go to another app (`StatusRouting.WriterAnswersMayGoAstray`).
  It reaches the app that pushed exactly when the push id is not 0 and the screen has stayed with it since the
  START or gone back to it since (`StatusRouting.WriterAnswersReachWhoTookTheScreen`); one from the host
  reaches that app or nobody (`StatusRouting.HostAnswersReachThePusher`).
- BYE does not end a transfer, and its slot may be let to another peer before END: a list document is then
  stored as the other peer's, over that peer's own (`Filing.ListMayBeFiledForAnother`). It is stored under the
  peer that pushed it exactly when the slot has not been let since the START, or last to that peer again; so
  are assets and content ids (`Filing.EndIsFiledUnderTheTenant`).
- A link that has sat in Idle asks for the Session profile when its holdoff is 2^32 ms old, with nobody on
  the screen, and again after every wrap (`ConnPolicy.IdleIsWishedFor`, `ConnPolicy.QuietLinkAsksAfterAWrap`).
- A batch whose last field came in the millisecond the clock read 0 is never timed out: 0 stands for "no
  time" (`BatchModel.TimesOutIff`, `BatchModel.StuckAtZero`).
- Tag state riding a batch that is later discarded is reported after all if a poll falls in between
  (`BatchModel.TagMayOutliveItsBatch`), and exactly then (`BatchModel.TagOutlivesItsBatchIff`). The comment at
  `src/CompanionBatchModel.cpp:112-119` reads as if it never were.
- A rename that fails in `storeListDocument` loses the old document as well as the new one, and losing power
  between the rename and the clearing of the diff leaves the new document under the old diff
  (`ListStore.StoreListDocument`). `src/CompanionPeerStore.h:259-261` speaks of a mid-write failure only.
  Should a stale temporary file be neither removed nor emptied, the push is stored behind it
  (`ListStore.StaleTmpSpoilsThePush`); what is stored is the push byte for byte exactly if there is none, or it was
  empty (`ListStore.LandsWholeIff`), and the card stays safe exactly if what landed is sound
  (`ListStore.SafeIffLandsSound`).
- In `commitImage` an index that could not be saved costs the image at the very next push, not six pushes
  on as `src/CompanionPeerStore.cpp:398-401` has it (`ImageRing.UnsavedIsOverwrittenNext`), and leaves the
  oldest entry naming a file with that image in it (`ImageRing.UnsavedTakesTheOldestsPlace`); a rename that
  fails after the slot was cleared leaves that entry without a file (`ImageRing.FailedRenameLosesTheOldest`).
  `ImageRing.OldestIsIntactIff` says exactly when the entry still has its bytes, and `ImageRing.NextSlotHolds`
  what lies there otherwise.
- A declaration encoded without its shape byte is not always refused as malformed, as
  `scripts/companion_protocol.py:288-294` says. It is exactly when it does not add up read one place off
  (`UiDeclaration.ShapelessVerdict`): with neither buttons nor tags, when it has a style other than the
  default (`UiDeclaration.BareMisreads`). The emptiest one is told it has no shape
  (`UiDeclaration.EmptyShapelessHasNoShape`), so is one of four buttons
  (`UiDeclaration.FourButtonsMayHaveNoShape`), and one of a single button passes for a text declaration
  (`UiDeclaration.ShapelessMayPass`).

## Model

| member | source | states |
|---|---|---|
| WriteBehind.StagedFileIsTheTransfer | src/CompanionBle.cpp:705-796 | In every interleaving, with any failed enqueue, open or write: when the staged callback fires, the closed file is, for the peer of the transfer's START, exactly the CHUNK payloads accepted since that START, under the content id and push id of its END |
| WriteBehind.HandedOverFilesSurvive | src/CompanionBle.cpp:1589-1606 | The Abort that follows a clean END never deletes the staged file: it stays, unchanged, until that peer's staging file is opened again |
| WriteBehind.LosingTheFileIsSafe | src/CompanionBle.cpp:837-856 | An Abort that could not be queued, and a card that failed, do no harm: any queue that is safe stays so when the writer has lost its file |
| WriteBehind.RunKeepsInv | src/CompanionBle.cpp:1241-1464 | The queue-shape invariant: draining the queue from any reachable state hands every END the file of its own transfer or none, and leaves the transfer in flight its own bytes or none |
| EndAccounting.EndsAreConserved | src/CompanionBle.cpp:1567-1607 | After every run, image ENDs accepted and not refused for shape equal immediate answers plus writer StorageFailed answers plus staged callbacks plus END messages queued or about to be; what the answers say is in TransferHistory |
| EndAccounting.EachEndIsAnsweredOnce | src/CompanionBle.cpp:762-789 | No END is answered twice or without being accepted; with the queue drained and the host idle each accepted one has been answered |
| EndAccounting.WriterStepAnswers | src/CompanionBle.cpp:724-796 | One turn of the writer answers exactly the ENDs it takes off the queue |
| SessionProofs.SessionsAreDistinct | src/CompanionBle.cpp:334-360 | In every reachable state no two live slots share a peer key |
| SessionProofs.ForegroundIsLive | src/CompanionBle.cpp:428-461 | In every reachable state, one with no live session included, the foreground is none or a live slot with a known shape |
| SessionProofs.NotificationsBracket | src/CompanionBle.cpp:428-461 | FOREGROUND is sent only with no bracket open, BACKGROUND only to the session whose bracket is open, and between handlers the open bracket is the foreground |
| SessionProofs.ContentComesFromTheForeground | src/CompanionBle.cpp:1315-1348 | Every field, list document and image handed on at END came, at its START, from the session then told it had the screen, in a field its shape permitted |
| Admission.SlotsAreLetOnlyToTheVouchedFor | src/CompanionBle.cpp:1048-1088 | After every run the peer of a live slot was recognised by a HELLO that passes the checks, its index entry in order, or its own prompt, left by such a HELLO and not settled since, was approved |
| SessionOutcomes.PromptIsSettled | src/CompanionBle.cpp:2171-2192 | A declined or expired prompt lets nobody in and says which; an approved one lets in the peer it was put up for, unless the card fails or no slot is free |
| SessionOutcomes.GreetingIsAnswered | src/CompanionBle.cpp:1048-1088 | A recognised peer gets the slot it has or a free one, and HELLO_OK names it; an unknown one gets a prompt, or Busy, and no slot |
| SessionOutcomes.ScreenFollowsThePackets | src/CompanionBle.cpp:1092-1199 | After every run, between handlers, the screen is with the session whose ACQUIRE was the last one granted, unless it has said BYE or RELEASE since or the link was lost |
| SessionOutcomes.AcquireTakesTheScreen | src/CompanionBle.cpp:1108-1144 | ACQUIRE by a live session with a declared shape takes the screen, whoever has it and whether or not the Abort of an image in flight is queued, and both sides are told; any other is denied and changes nothing |
| SessionOutcomes.ReleaseFreesTheScreen | src/CompanionBle.cpp:1184-1192 | RELEASE by the session that has the screen frees it and tells it so, and touches nothing else; by another it does nothing |
| SessionOutcomes.ByeFreesTheSlot | src/CompanionBle.cpp:452-461 | BYE frees that slot and no other, and the screen only if the session had it |
| SessionOutcomes.DisconnectFreesAll | src/CompanionBle.cpp:1863-1881 | A lost link leaves no session, no prompt, nobody on the screen and nothing in flight |
| SessionOutcomes.ShapeIsCachedWhenDeclared | src/CompanionBle.cpp:1250-1274 | Through any step a live session's cached shape stays, but for an ACQUIRE of its own that is granted, or its own declaration stored while it has the screen |
| DeviceFrames.OnSessionWriteSplit | src/CompanionBle.cpp:1092-1199 | A session packet other than an ACQUIRE that takes the screen over touches only the session table, the pairing and the notifications; one that does, aborts what is in flight first |
| Framer.PushField | scripts/companion_protocol.py:975-1041 | START, then the CHUNK packet of every index in order, then END; chunks begin inside the data and cover it |
| Framer.OffsetIsAMultiple | scripts/companion_protocol.py:1020-1035 | Chunk i begins at i chunk lengths |
| Framer.JoinedIsPrefix | scripts/companion_protocol.py:1020-1035 | The first m payloads, joined, are the data up to where chunk m begins; all of them are the data |
| TextTransfer.StartOpensTheField | src/CompanionBle.cpp:1285-1385 | START from the foreground session of a TEXT peer opens an empty buffer of min(length, cap) numbering from 0, after any image in flight is aborted |
| TextTransfer.InOrderMeansAPrefixOfTheChunks | src/CompanionBle.cpp:1378-1384 | Below 65536 chunks, in sequence means chunks 0 to m-1, each once; all of them give the whole capped field |
| TextRuns.EndHandsOnWhatCame | src/CompanionBle.cpp:1474-1709 | After any run at all in which a title's or body's transfer is the push of one field, its CHUNKs lost, repeated or reordered: if the m that came since START came in sequence, END hands on one Complete with the field's first m chunks, cut at min(length, cap), and nothing else; if not, Dropped and a gap notice; nothing when the session is gone, and a status when its shape refuses the field |
| Pushing.StepKeepsPending | src/CompanionBle.cpp:1285-1312 | A START that waits for the Abort before it begins just the transfer its packet asked for, whatever comes in between |
| TransferHistory.StartIsTakenIff | src/CompanionBle.cpp:1285-1312 | A START is taken exactly if it is whole, of a known field and of a live session, which must have the screen unless the field is an asset; taken, it begins a transfer for that session's peer and shape |
| TransferHistory.ImageEndIsAnsweredByWhatCame | src/CompanionBle.cpp:1567-1607 | After every run, by the START packet and the CHUNKs since: RejectedSize exactly if the announced length is over 128 KiB; else SequenceGap exactly if the first fault was a CHUNK with another number than the next, or too short; else StorageFailed exactly if it was a message not queued or a payload too long; else END goes to the writer unanswered |
| TransferHistory.LaterAnswersAreStorageFailed | src/CompanionBle.cpp:762-789 | An answer not given at END is StorageFailed: the host's when END could not be queued, the writer's when it has no file |
| TransferHistory.EndHandsOnThePayloads | src/CompanionBle.cpp:1513-1663 | After every run, END of a list document, a declaration, an icon, a content id or a tag state hands on the payloads that came since its START, joined and cut at the announced length or the cap, with the status or acknowledgement the card's answer calls for; nothing of a session that is gone, and a status if the shape did not take the field |
| TransferHistory.InOrderPushIsHandedOnWhole | scripts/companion_protocol.py:975-1041 | So what push_field() sends of such a field, all of it in order, arrives as the data up to the cap |
| TransferHistory.EveryThirtySecondIsAcknowledged | src/CompanionBle.cpp:1455-1463 | After every run, of the image CHUNKs queued exactly every 32nd is acknowledged, with its own number |
| StagingFiles.NoHalfImageStays | src/CompanionBle.cpp:705-722 | While the card removes and opens what it is told to, every staging file but the one being written was handed over and is as it was then |
| StagingFiles.AbandonedImagesAreAborted | src/CompanionBle.cpp:858-872 | While messages can be queued: with no image being collected, or with one that has failed, draining the queue leaves no file open |
| StagingFiles.QueueStaysShort | src/CompanionBle.cpp:837-843 | The queue never has more than ten messages |
| ImageTransfer.StagedFileIsAPrefix | src/CompanionBle.cpp:1392-1464 | Below 65536 chunks, over every run in which the transfer's CHUNKs are packets of one image, lost, repeated or reordered, a staged file is a prefix of that image |
| ImageSchedules.WholeImageIsStaged | src/CompanionBle.cpp:1567-1607 | After any run, of an image the device has room for, in payloads it has room for, the packets coming in order and no send or write failing: however sends and writer's turns fall in between, at any depth of the queue, once that is drained the whole image has been staged, for the peer in the foreground, under its content id and the push id of its END |
| ImageSchedules.EveryImageCanBeStaged | src/CompanionBle.cpp:724-796 | After any run such a push can be made and drained, whatever was in flight or queued |
| ImageBound.StagesPrefixesIff | src/CompanionBle.cpp:1405-1464 | For every image the framer can send: whatever is done to its push, what is staged is a prefix of it, exactly when it has fewer than 65536 chunks or is over the device's cap |
| ImageBound.OverrunFromPowerUp | src/CompanionBle.cpp:1405-1464 | Otherwise a run from power-up stages the whole image and its first chunk once more |
| ImageBound.OverCapStagesNothing | src/CompanionBle.cpp:1350-1359 | Of an image over the cap not a byte is ever staged |
| Tenancy.RunKeepsInv | src/CompanionBle.cpp:428-461 | After every run the tenant of a live slot is the peer HELLO_OK last named for it, and the screen is where FOREGROUND, BYE, RELEASE or the loss of the link last left it; every content transfer was STARTed by the tenant of its slot, with the screen |
| StatusRouting.HostAnswersReachThePusher | src/CompanionBle.cpp:2137-2146 | In every run, what the host answers is told the app whose push it answers exactly when the push id is not 0 and the screen has stayed with it since its START; otherwise nobody, and another app never |
| StatusRouting.WriterAnswersReachWhoTookTheScreen | src/CompanionBle.cpp:762-789 | In every run, of what the writer answers the app that pushed is told exactly when the push id is not 0 and the screen stayed with it since its START or last went to a slot let to it; another app exactly when the screen last went to a slot let to that one; nobody when it was last let go of |
| StatusRouting.WriterAnswersMayGoAstray | src/CompanionBle.cpp:762-789 | From power-up, a writer's answer to one app's image sent to another app |
| Filing.EndIsFiledUnderTheTenant | src/CompanionBle.cpp:1534-1663 | After any run, what an END stores, a list document, an asset or a content id, it stores under the peer its slot was last let to since the START: under the one that pushed exactly when the slot has not been let since, or last to that peer again |
| Filing.ListMayBeFiledForAnother | src/CompanionBle.cpp:1628-1643 | From power-up, one peer's list document stored as another's, whose slot it has become |
| Hello.ReadIffEncodedPrefix | src/CompanionBle.cpp:1001-1047 | A HELLO passes every length check, and is read as a given greeting, exactly when it begins with that greeting's encoding |
| Hello.TruncatedIsMalformed | src/CompanionBle.cpp:1004-1044 | No greeting cut short gets past the checks |
| Hello.VersionIsToldFirst | src/CompanionBle.cpp:1001-1021 | A packet that begins with the first four bytes of a client's HELLO of some version is told of a mismatch exactly when that version is another, however it goes on or is cut |
| CompanionBle.Reassembler.Append | src/CompanionBle.cpp:1490-1520 | The memcpy into the field buffer appends the payload as far as the capped length goes |
| CompanionBle.Ble.FindSession | src/CompanionBle.cpp:343-349 | The loop finds the first live session of the peer |
| CompanionBle.Ble.FindFreeSlot | src/CompanionBle.cpp:351-360 | The loop finds the first free slot |
| CompanionBle.Ble.Take | src/CompanionBle.cpp:1277-1709 | Every event in place leaves the state of Device.Step |
| CompanionBle.RunFromPowerUp | src/CompanionBle.cpp:1277-1709 | From power-up, through any events, the variables hold the state Device.Run gives |
| TodoDiff.ToggleFlips | src/CompanionTodoDiff.cpp:70-98 | An accepted toggle keeps the table sorted and within 512 entries, flips its item and changes no other |
| TodoDiff.RefusedExactlyWhenFull | src/CompanionTodoDiff.cpp:90-93 | A toggle is refused exactly when it needs a new entry at 512 |
| TodoDiff.ToggleTwiceIsIdentity | src/CompanionTodoDiff.cpp:76-97 | Toggling twice an item without an entry, or with one that differs from the document as every entry of a run does, gives back the very same table |
| TodoDiff.ToggleRun | src/CompanionTodoDiff.cpp:64-98 | After any toggles against a fixed document: sorted, an entry exactly for items that differ, and what is shown is the document's value flipped by the parity of accepted toggles |
| TodoDiff.DecodeIffEncodedPrefix | src/CompanionTodoDiff.cpp:129-162 | decode() accepts a buffer, as a given diff, exactly when the buffer begins with that diff's encoding; so it undoes encode() |
| TodoDiff.HeaderIffEncodedPrefix | src/CompanionPeerStore.cpp:73-95 | A header is opened exactly when the file begins with its encoding and the count is at most 512 |
| TodoDiff.EncodeDiffInjective | src/CompanionTodoDiff.cpp:107-127 | No diff's encoding begins with another's |
| TodoDiffTable.Diff.LowerBound | src/CompanionTodoDiff.cpp:23-35 | The binary search finds how many ids are smaller |
| TodoDiffTable.WriteBit | src/CompanionTodoDiff.cpp:37-46 | Writing one packed bit changes that position's flag and no other |
| TodoDiffTable.Diff.EraseAt | src/CompanionTodoDiff.cpp:48-54 | The shifted ids and bits are the table without that entry |
| TodoDiffTable.Diff.InsertAt | src/CompanionTodoDiff.cpp:56-62 | The shifted ids and bits are the table with the entry in between |
| TodoDiffTable.Diff.EffectiveChecked | src/CompanionTodoDiff.cpp:64-68 | What is shown for an item |
| TodoDiffTable.Diff.ApplyToggle | src/CompanionTodoDiff.cpp:70-98 | The arrays hold the toggled table, or are as they were when it is refused |
| TodoDiffTable.Diff.Encode | src/CompanionTodoDiff.cpp:107-127 | The buffer begins with the whole encoding and is untouched behind it, or altogether when it is too short |
| TodoDiffTable.Diff.Decode | src/CompanionTodoDiff.cpp:129-162 | The arrays hold the decoded diff, or are cleared when there is none |
| ListStatePull.OnListStateGet | src/CompanionBle.cpp:1146-1182 | What the device sends for a page is what the client decodes, in at most 101 bytes |
| ListStatePull.NoteOfReply | scripts/companion_protocol.py:571-578 | The client reads back revision, offset, total and every row |
| ListStatePull.PageOfStored | src/CompanionPeerStore.cpp:593-623 | A request into a stored diff is answered with the next entries from its offset, up to 30 |
| ListStatePull.NothingPastTheEnd | src/CompanionBle.cpp:1161-1168 | A request from any offset past the end of the stored diff is answered with its revision and total and no entries |
| ListStatePull.PullListState | scripts/companion_protocol.py:933-951 | The client loop ends and is Walk |
| ListStatePull.WalkReturnsTheDiff | scripts/companion_protocol.py:933-951 | With a readable diff the walk returns its revision and all entries once, ascending, after ceil(n/30)+1 requests; a card fault ends it with a prefix; no diff gives nothing |
| ListStatePull.OverlayShows | src/CompanionTodoDiff.cpp:64-68 | Laid over the document, pulled entries show what effectiveChecked() shows |
| ListStatePull.SavedEditsAreTheTaps | src/CompanionPeerStore.cpp:561-591 | Any toggles, saved and read back, laid over the document are the document flipped by the accepted toggles |
| TodoDocument.EncodeListDoc | scripts/companion_protocol.py:378-396 | The nested loops append exactly the document's encoding |
| TodoDocument.ParsesIffEncoded | src/CompanionTodoDocument.cpp:37-108 | Ok, with a given document, exactly when the whole buffer is that document's encoding and every checkbox is 0 or 1 |
| TodoDocument.AcceptedIffLegal | scripts/companion_protocol.py:342-396 | An encoded document is accepted exactly when its checkboxes are 0 or 1, and then read back whole |
| TodoDocument.EncodeDocumentInjective | scripts/companion_protocol.py:378-396 | No two documents, legal or not, have one encoding |
| TodoDocument.NothingFollowsADocument | src/CompanionTodoDocument.cpp:101-105 | Whatever follows a document makes it malformed |
| TodoDocument.CallsRebuildTheDocument | src/CompanionTodoDocument.h:77-126 | The visitor's calls determine the document: from them it is rebuilt |
| TodoDocumentParser.ReadString | src/CompanionTodoDocument.cpp:24-33 | A length-prefixed string, or nothing when it would run past the end |
| TodoDocumentParser.VisitItems | src/CompanionTodoDocument.cpp:78-93 | The item loop reads and reports exactly the group's items |
| TodoDocumentParser.VisitGroups | src/CompanionTodoDocument.cpp:63-96 | The group loop reads and reports exactly the list's groups |
| TodoDocumentParser.VisitLists | src/CompanionTodoDocument.cpp:48-99 | The list loop reads and reports exactly the document's lists |
| TodoDocumentParser.ParseAndVisit | src/CompanionTodoDocument.cpp:37-108 | parseDocument() in place: Ok exactly for a whole legal document, and then the visitor has heard all of it; no read leaves the buffer |
| Grammar.ManySound | src/CompanionTodoDocument.cpp:48-99 | A counted run that parses is spanned by the encodings of legal elements, as many as counted |
| Grammar.ManyComplete | src/CompanionTodoDocument.cpp:48-99 | Wherever a run of legal elements' encodings stands, it is parsed back |
| Protocol.FieldsGoWithOneShape | src/CompanionUiDeclaration.cpp:96-118 | A content field is for one shape, but for tag state, which TEXT and IMAGE peers have; assets are for none |
| UiDeclaration.DecomposesIffEncoded | src/CompanionUiDeclaration.cpp:17-61 | A body comes apart in at most one way into shape, buttons, optional tags and at most two trailing bytes, and all of it is accounted for |
| UiDeclaration.VerdictOf | src/CompanionUiDeclaration.cpp:78-94 | Malformed exactly when it is no encoding; NoShape or Ok by the shape byte alone; Ok reports each field of what was encoded, absent ones as their defaults |
| UiDeclaration.WalkBody | src/CompanionUiDeclaration.cpp:17-61 | The walk succeeds exactly on encodings, and reads nothing outside the body; what it reports are its first bytes and its last ones, style and then capabilities |
| UiDeclaration.ParseBodyInPlace | src/CompanionUiDeclaration.cpp:78-89 | parseBody() |
| UiDeclaration.EncodeUiDeclaration | scripts/companion_protocol.py:304-325 | The client's buffer is the digest, the shape if any, and the body of the request |
| UiDeclaration.EncodedIsRead | scripts/companion_protocol.py:272-325 | The device reads Ok, and field by field what the request asked for: its buttons, its tags cut to 12 bytes, its style or the default, its capabilities or none, and which were there |
| UiDeclaration.ShapelessVerdict | scripts/companion_protocol.py:288-294 | The verdict on every declaration without its shape byte: malformed exactly when its bytes do not add up read one place off; else by whether its button count is a shape's number |
| UiDeclaration.BareMisreads | scripts/companion_protocol.py:288-294 | With neither buttons nor tags it adds up exactly when its style is absent or the default |
| UiDeclaration.EmptyShapelessHasNoShape | scripts/companion_protocol.py:288-294 | The emptiest one is answered NoShape, not Malformed |
| UiDeclaration.FourButtonsMayHaveNoShape | scripts/companion_protocol.py:288-294 | So is one of four buttons |
| UiDeclaration.ShapelessMayPass | scripts/companion_protocol.py:288-294 | One of a single button is accepted as a text declaration |
| Layouts.StartLayout | docs/companion-display-protocol.md:975-978 | START byte by byte |
| Layouts.ChunkLayout | docs/companion-display-protocol.md:980-987 | Numbered and unnumbered CHUNKs |
| Layouts.HelloLayout | docs/companion-display-protocol.md:547-550 | HELLO |
| Layouts.ReplyLayout | docs/companion-display-protocol.md:615-616 | LIST_STATE |
| Layouts.DeclarationLayout | docs/companion-display-protocol.md:1421-1437 | A declaration with a button and a tag |
| Layouts.DocumentLayout | docs/companion-display-protocol.md:1785-1802 | A list document with a list, a group and an item |
| Layouts.DiffLayout | src/CompanionTodoDiff.cpp:111-125 | A check-off diff with an entry |
| ListStore.Card.WriteWholeFile | src/CompanionPeerStore.cpp:170-177 | Byte by byte, with every state on the way: only that file changes, and true means all of it landed |
| ListStore.Replace | src/CompanionPeerStore.cpp:455-478 | Through a temporary file: at every moment the destination is the old file, absent, or all of the new one |
| ListStore.StoreListDocument | src/CompanionPeerStore.cpp:442-495 | A malformed push touches nothing, one that does not land leaves document and diff; Stored leaves what landed, the pushed bytes if the temporary file was removed or emptied, and, if the card let it go, no diff; a failed rename leaves no document; and power lost on the way leaves one of these |
| ListStore.WriteListState | src/CompanionPeerStore.cpp:561-591 | True leaves what landed, which readListState() decodes to the diff if the temporary file was removed or emptied; a write that does not land leaves the old diff |
| ListStore.ClearListState | src/CompanionPeerStore.cpp:625-628 | Only the diff and its temporary file go |
| ListStore.CardStaysSafe | src/CompanionPeerStore.cpp:442-591 | Through any operations that begin in an empty temporary file, each cut off anywhere: lists.bin is absent or parses, and is a pushed document byte for byte; list_state.bin is absent or decodes |
| ListStore.LandsWholeIff | src/CompanionPeerStore.cpp:455-460 | What lands is the data byte for byte exactly when the temporary file was absent, removed, emptied, or empty |
| ListStore.SafeIffLandsSound | src/CompanionPeerStore.cpp:442-591 | An operation keeps that, wherever it is cut off, exactly when what it lands parses or decodes |
| ListStore.StaleTmpSpoilsThePush | src/CompanionPeerStore.cpp:455-460 | Why the temporary file is cleared first: behind a sound document a sound push does not land sound |
| ConnPolicy.CompanionConnPolicy.PumpNow | src/CompanionConnPolicy.cpp:23-52 | pump() in place is Pump |
| ConnPolicy.CompanionConnPolicy.Connected | src/CompanionConnPolicy.cpp:54-58 | onConnect() in place |
| ConnPolicy.CompanionConnPolicy.Disconnected | src/CompanionConnPolicy.cpp:60-70 | onDisconnect() in place |
| ConnPolicy.CompanionConnPolicy.Granted | src/CompanionConnPolicy.cpp:72-91 | onGrant() in place |
| ConnPolicy.CompanionConnPolicy.ForegroundActive | src/CompanionConnPolicy.cpp:93-104 | setForegroundActive() in place |
| ConnPolicy.RunsAreOrderly | src/CompanionConnPolicy.cpp:23-104 | Over every timed run: two requests of a link are separated by a grant in range or more than 3000 ms; the current profile is the one last confirmed by such a grant; Idle is asked for only after 10000 ms of link with nobody on the screen |
| ConnPolicy.LinkSettles | src/CompanionConnPolicy.cpp:23-104 | From any report on any link: with the foreground as reported, no tick while a request is overdue, a tick past the holdoff that finds every request granted, and every request granted at the end, the link is in the profile its foreground calls for after at most two requests, and no further one follows while the peace lasts (an empty screen for less than a clock wrap) |
| ConnPolicy.WhatIsWishedForIsAskedFor | src/CompanionConnPolicy.cpp:23-58 | After every timed run a link that comes up is asked for Session at once, and one that is up, at a tick, for the profile wished for, if it is not the confirmed one and the last request was answered or is overdue |
| ConnPolicy.ProfilesAskForWhatTheyAreFor | src/CompanionConnPolicy.h:28-53 | Any Session grant has the link answer every 15 ms, any Idle grant every 465 to 930 ms, no grant is both, and the supervision timeout is over three times that |
| ConnPolicy.IdleIsWishedFor | src/CompanionConnPolicy.cpp:99-103 | Idle is wished for exactly when the time since, modulo 2^32 ms, is at least 10000 ms |
| ConnPolicy.QuietLinkAsksAfterAWrap | src/CompanionConnPolicy.cpp:99-103 | A run from no link at all: at rest in Idle, a link asks for Session when its holdoff is one whole wrap old |
| Millis.ElapsedIsModular | src/CompanionConnPolicy.cpp:27 | Unsigned subtraction is real time modulo 2^32 |
| BatchModel.CompanionBatchModel.Receive | src/CompanionBatchModel.cpp:5-57 | onField() in place, memcpy into the buffers included |
| BatchModel.CompanionBatchModel.PollNow | src/CompanionBatchModel.cpp:59-122 | poll() in place |
| BatchModel.CompanionBatchModel.ResetAll | src/CompanionBatchModel.cpp:124-134 | reset() in place |
| BatchModel.CompanionBatchModel.LinkDropped | src/CompanionBatchModel.cpp:136-152 | resetOnDisconnect() in place |
| BatchModel.RunHolds | src/CompanionBatchModel.cpp:5-152 | After every history the flags, buffers and clocks say what the fields since the last resolution say |
| BatchModel.PollReportsTheHistory | src/CompanionBatchModel.cpp:59-122 | For every history a poll discards if a title or body since the last resolution was lost, and else commits the last title and body, cut to the buffer, under the last final push id; nothing of an earlier batch shows |
| BatchModel.TimedOutIsAnonymous | src/CompanionBatchModel.cpp:64-80 | A timed-out resolution carries push id 0 |
| BatchModel.TimesOutIff | src/CompanionBatchModel.cpp:64-77 | A begun batch without a final field resolves exactly when its last field's clock was not 0 and the time since, modulo 2^32, is over 3000 ms |
| BatchModel.NoneIsStuck | src/CompanionBatchModel.cpp:64-101 | A poll more than 3000 ms and less than a wrap after the last field settles a begun batch |
| BatchModel.StuckAtZero | src/CompanionBatchModel.cpp:64 | One that no poll settles |
| BatchModel.TagOutlivesItsBatchIff | src/CompanionBatchModel.cpp:81-119 | Over every history: of a tag state riding a batch that a later poll discards, a title or body of it being lost, and neither replaced nor reset in between, some poll reports it exactly when there was a poll between its arrival and that one |
| BatchModel.TagMayOutliveItsBatch | src/CompanionBatchModel.cpp:103-119 | A riding tag state reported before its batch is discarded |
| PeerIndex.PeerStore.EnsurePeer | src/CompanionPeerStore.cpp:238-268 | The list of peers, newest first, becomes the one with this key in front, cut to 32; unchanged when the index cannot be saved |
| PeerIndex.PeerStore.TouchPeer | src/CompanionPeerStore.cpp:671-681 | A known peer comes to the front with a new stamp, if the index can be saved; nothing changes for another |
| PeerIndex.PeerStore.ForgetPeer | src/CompanionPeerStore.cpp:805-819 | The list without the key |
| PeerIndex.EvictOverflow | src/CompanionPeerStore.cpp:205-222 | What is kept are the 32 most recently seen |
| PeerIndex.PeerStore.ListPeers | src/CompanionPeerStore.cpp:736-759 | Every peer once, newest first, as far as there is room |
| PeerIndex.PeerStore.ListIconTiles | src/CompanionPeerStore.cpp:683-734 | The tiles of the list, up to the cap of 18 |
| PeerIndex.TileForEachApp | src/CompanionPeerStore.cpp:688-733 | Every app with an icon has a tile, and it is its most recent peer with one |
| PeerIndex.TilesPerApp | src/CompanionPeerStore.cpp:706-714 | No app has two tiles |
| PeerIndex.RecentIsAList | src/CompanionPeerStore.cpp:202-222 | Over every history keys stay distinct, at most 32 remain, the one just seen first |
| PeerIndex.StaysWhileRecent | src/CompanionPeerStore.cpp:202-222 | A peer once seen, ensured or touched, stays until it is forgotten or 32 others have been seen since |
| PeerIndex.KnownKeyMoves | src/CompanionPeerStore.cpp:671-681 | After every history, touching or ensuring a peer that is there brings it to the front, the others behind it in their order; forgetting takes it out |
| PeerIndex.UnknownKeyEnters | src/CompanionPeerStore.cpp:238-268 | Ensuring one that is not puts it in front of the 31 most recent; touching or forgetting it changes nothing |
| ImageRing.Images.CommitImage | src/CompanionPeerStore.cpp:353-404 | commitImage() in place |
| ImageRing.Images.ListImages | src/CompanionPeerStore.cpp:406-440 | The entries oldest first, as far as there is room |
| ImageRing.GalleryIsARing | src/CompanionPeerStore.cpp:353-404 | Whatever fails, the index lists exactly the last six saved pushes, oldest first, with their numbers, slots and content ids cut to 32 bytes, and each lies in its slot but for the slot the next push takes; right after a saved push, that one too |
| ImageRing.IndexIsAscending | src/CompanionPeerStore.cpp:412-416 | After any pushes the index is in order and has at most six entries |
| ImageRing.NextSlotHolds | src/CompanionPeerStore.cpp:378-404 | After any pushes, what lies in the slot the next one will take: the oldest of six images, or nothing below six, unless a push that was not saved touched it; then what the last such push left |
| ImageRing.OldestIsIntactIff | src/CompanionPeerStore.cpp:378-404 | The oldest of six indexed images still has its bytes exactly when no push touched its slot since the last saved one, or the last that did moved the same bytes there |
| ImageRing.FailedRenameLosesTheOldest | src/CompanionPeerStore.cpp:378-384 | An index entry left without its file |
| ImageRing.UnsavedTakesTheOldestsPlace | src/CompanionPeerStore.cpp:386-403 | An index entry left naming a file with another push's image in it |
| ImageRing.UnsavedIsOverwrittenNext | src/CompanionPeerStore.cpp:396-403 | An image whose index entry was not saved is overwritten by the next push |
| I18nBlob.CompileEnglish | scripts/gen_i18n.py:663-676 | Refused exactly when the blob is over 32767 bytes; else every string stands at its offset |
| I18nBlob.CompileLanguage | scripts/gen_i18n.py:677-700 | Refused exactly when what it does not share is over 32767 bytes; else every id resolves to its own translation, shared or not |
| I18nBlob.StandingIsRead | lib/I18n/I18n.cpp:15-28 | Reading to the NUL from where a string stands gives that string |
| I18nBlob.EnglishIsResolved | lib/I18n/I18n.cpp:15-28 | English resolves to itself |
| I18nBlob.SharingSaves | scripts/gen_i18n.py:681-687 | A language's blob is smaller than one of all its strings by exactly the room of those it shares |

## Left out

- NimBLE, GATT, advertising, MTU, PHY and DLE procedures, power locks, heap checks, chunk-timing histograms and logs: a request made, a grant received and a notification sent are events here.
- The main loop and the host task share some variables without a lock: `resolvePairing()` and the policy's `step()` are single steps here, and `stop()` is not modelled.
- `CompanionModeActivity`, rendering and image decoding: the staged callback and the field callback are where the model ends. The activity taking a staged file away is not modelled.
- In the device's trace a RENDER_STATUS is a call of `notifyRenderStatus()`; StatusRouting says whom it reaches. The statuses the activity sends after rendering are not modelled.
- Peer keys, asset digests and tokens are opaque: no hashing, no random numbers, no token comparison. HELLO tags, HELLO_OK's token and asset tags, LIST_STATE_AVAIL and button notifications are not in the trace.
- `CompanionBle.Ble` reads the session table as one value and the queue as a sequence, not as FreeRTOS objects; messages are not pooled, and a CHUNK's payload is copied by value.
- END does not check completeness, for images or text: that trailing CHUNKs were lost is not detected, so a prefix is all there is to prove.
- The text of a list pushed through CONTENT is reassembled without sequence numbers; only its parse guards it.
- JSON and the SD driver: an index is a value, a file is bytes, a rename is atomic, a failed save leaves the old index. Peer directories and their removal are not modelled.
- Whether `openFileForWrite()` empties a file it finds is a parameter of every write; its driver is not part of this model.
- PeerIndex.PeerStore.EnsurePeer: up to the counter's last value before 2^32; names and the user's name are not kept.
- ImageRing.Images.CommitImage: up to the counter's wrap.
- The policy's divergence report (`matched_`, `divergenceLogged_`, `divergenceDue()`) is a diagnostic and is not modelled.
- UTF-8: titles, labels and names are bytes. Literal escaping and line wrapping in the generator are not modelled; blobs are bytes.
- asyncio and bleak: the client is its byte building and its page walk.
- The button policy, on-device list navigation, settings, fonts, Wi-Fi and readers.
