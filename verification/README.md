# Models of museekd, its ciphers and the libevent parts below it

This project models the algorithms under the museekd daemon and proves what they are meant to do. The modules:

- **Cipher.** `GaloisField` and `Fips197` state the field and the cipher of FIPS 197 without tables. `AesTables`, `AesRounds`, `Aes`
  and `AesBlocks` are the program's route to it: logarithm tables, merged round tables, an expanded key with a decryption schedule,
  rounds in pairs, and whole buffers. `CipherKeys` sets a key from a pass phrase.
- **Hashes.** `Fips180`, `Fips180Sha1` and `Rfc1321` are the standards' definitions. `Sha256`, `Sha1` and `Md5` are the streaming
  contexts, on `Blocks` (folding, cutting and padding), `HashWords`, `HashLogic`, and `WideWords` and `Md5Wide` (words of any width).
- **Upload scheduler.** `UploadModel` says what every operation of the manager does, as functions on a value, handlers it re-enters
  included. `UploadProofs`, `UploadHandlers`, `UploadReply` and `UploadRuns` prove what runs keep; `UploadMessages` is about reply messages,
  `UploadStates` about states that runs lead to, and `UploadLost` about a request that is lost; `UploadEffects` is where each event leaves
  its upload, and the order of starts, `UploadOutcomes` what it leaves of all uploads, row by row; `UploadQueue` is the place in the queue. `Uploads` has the objects that change in place, each method tied to its function.
- **Search.** `SharesTerms` is the words of paths and the terms of queries, `QueryTerms` what a query says, without the pass over it, `Shares` the inverted index and the search, and
  `SearchAgreement` says for which queries the search agrees with a linear scan.
- **Wire and flow.** `NetBuffer`, `Frames`, `NetworkMessages` with `PeerMessages`, `ShareStore` with `ShareTree`, `ShareLists` with
  `ShareFolds`, `RateLimiter` with `RateWindows`; `Octets`, `KeyMaps`, `MapLaws`, `FileEntries`, `Ascii`, `Widths`, `Sets` and `Basics`
  are shared.
- **libevent.** `BuffereventPair` with `PairModel` and `PairEffects`; `Arc4` with `Rc4`, the loop of RC4; `ArcUniform`.

Where the source changes state, a class changes the same fields and every method's `ensures` ties the new state to a function of the
old one; the lemmas are about those functions. Where a property one would expect of the code is false, a lemma gives an input or a whole
family of them, and another says exactly when it holds, or what holds instead:

- A peer's permission for an upload that already holds a socket can leave two uploads of one user running, or one more than there are
  slots, or an upload running that is off the list (`UploadReply.AllowedIff`). Such a permission does come: an upload announced twice
  on one socket leaves the reply handler connected twice, and one message then calls it twice (`UploadMessages.MessageIff`,
  `UploadMessages.SecondPermissionBreaks`).
- An upload whose connection cannot be made does not stay in the state for that (`UploadEffects.CannotConnectEnds`).
- The place in the queue is counted to the first upload with the path, whoever's it is (`UploadQueue.QueueLengthIff`, `UploadQueue.WrongUpload`).
- The bit count of SHA-256 loses the high part of a call of 2^29 bytes or more unless the low part carries over
  (`Sha256.CountIff`, `Sha256.OneCallIff`).
- The rate limiter bounds windows of up to 999 milliseconds, at every limit, and none that is longer (`RateWindows.WindowBoundIff`,
  `RateWindows.SecondMayCarryMore`).
- A frame of length 2^32 - 4 keeps the parser's loop going for ever (`Frames.StuckIff`, `Frames.StuckForEver`), and a frame that is
  too short for its code claims nearly 2^32 bytes of data (`Frames.LengthIsDataIff`, `Frames.ShortFrameClaims`).
- A flush stops at the high mark it is to ignore if the input is below it (`PairModel.FlushEmptiesIff`); with writing suspended,
  enabling it hands nothing over (`PairModel.EnableWaitsIff`, `PairModel.SuspendedWriteWaits`).
- A saved size of 2^31 or more is not loaded as it was, since its bytes are shifted as ints (`ShareTree.OffBackIff`,
  `ShareTree.TreeBackIff`).
- Slashes in names and folders without directories do not survive a reply (`PeerMessages.FolderReplyIff`, `PeerMessages.SearchReplyIff`);
  folders with a path that occurs twice do not survive folding (`ShareFolds.FoldAllKeepsIff`).
- Exclusions beside phrases alone are ignored, although the query syntax suggests otherwise, and a query of exclusions alone finds
  nothing (`SearchAgreement.PhraseSearchIff`, `SearchAgreement.SearchAgreesIff`). A doubled space makes an empty word, which no path
  holds: search and scan agree that there is nothing to find (`Shares.DoubleSpaceFindsNothing`).
- A request repeated after everything has been sent, but before the socket closes, is lost if finished uploads are cleared: it is queued
  off the list (`UploadOutcomes.AddedAgain`, `UploadLost.RequestIsLost`).
- A quote that is never closed swallows the rest of the query (`QueryTerms.OpenQuoteIsLost`).
- A search reply of one file with a size of four bytes is not parsed again, and the size comes back wrong (`PeerMessages.OneShortFileMisread`).
- The bytes drawn after a key are not RC4's: mixing leaves the index i at 255 and sets j to the same, where RC4 starts again at 0. They
  are those of RC4's loop from there (`Rc4.KeyedStream`), and would be RC4's if and only if the place were 0 (`Rc4.AlwaysRc4Iff`,
  `Rc4.FirstByteDiffers`).
- A buffer assigned to itself is emptied (`NetBuffer.Buffer.Assign`).

## Model

| member | source | states |
|---|---|---|
| GaloisField.XTimeIsConditional | Museek/Mucipher/aes.cpp:184 | doubling a byte is a shift with a conditional subtraction of the modulus |
| GaloisField.PowPeriod | Museek/Mucipher/aes.cpp:176-185 | the powers of 3 come back to 1 after 255 steps, so entry 255 of the power table is entry 0 |
| GaloisField.PowInjective | Museek/Mucipher/aes.cpp:176-185 | no two exponents below 255 give the same power of 3, so the logarithm table is never overwritten by a different exponent |
| GaloisField.LogExists | Museek/Mucipher/aes.cpp:176-187 | every non-zero byte is a power of 3: the logarithm table has no hole |
| GaloisField.MulLogs | Museek/Mucipher/aes.cpp:130-136 | adding logarithms, less 255 once the sum passes 255, multiplies in the field |
| GaloisField.MulCommutes | Museek/Mucipher/aes.cpp:130-138 | field multiplication does not depend on the order of its factors |
| GaloisField.MulAssociates | Museek/Mucipher/aes.cpp:130-138 | field multiplication does not depend on how three factors are grouped |
| GaloisField.MulAdd | Museek/Mucipher/aes.cpp:130-138 | multiplication distributes over exclusive or on both sides |
| GaloisField.InverseIsInverse | Museek/Mucipher/aes.cpp:195-196 | the power table read at 255 less the logarithm is the multiplicative inverse |
| GaloisField.InverseUnique | Museek/Mucipher/aes.cpp:195-196 | a byte has no other inverse than the one the tables give |
| GaloisField.InverseInvolution | Museek/Mucipher/aes.cpp:195-200 | inverting twice gives the byte back, 0 included |
| Fips197.SBoxInverse | Museek/Mucipher/aes.cpp:195-201 | the two substitution boxes of FIPS 197 undo each other |
| Fips197.InvMixColumnOfMixColumn | Museek/Mucipher/aes.cpp:212-232 | the matrix with 14, 9, 13, 11 undoes the one with 2, 1, 1, 3 |
| Fips197.InvMixColumnAdd | Museek/Mucipher/aes.cpp:332-334 | InvMixColumns is linear, which lets it be applied to round keys in advance |
| Fips197.SchedulesMatch | Museek/Mucipher/aes.cpp:327-334 | the two key schedules stand in the relation section 5.3.5 of FIPS 197 asks for |
| Fips197.InverseRetraces | Museek/Mucipher/aes.cpp:407-444 | the equivalent inverse cipher meets, in reverse order, every state of the cipher, substituted and shifted |
| Fips197.EqInvCipherOfCipher | Museek/Mucipher/aes.cpp:354-444 | the equivalent inverse cipher undoes the cipher, for every state and every schedule with its decryption schedule |
| Fips197.EqInvCipherIsInvCipher | Museek/Mucipher/aes.cpp:394-444 | on every block the equivalent inverse cipher equals the straightforward one of section 5.3 |
| AesTables.StepIsTriple | Museek/Mucipher/aes.cpp:184 | the step of the table loop multiplies by 3 |
| AesTables.AffineByShifts | Museek/Mucipher/aes.cpp:197-198 | the two shifted sums are the affine map of section 5.1.1 |
| AesTables.Tables.GenLogs | Museek/Mucipher/aes.cpp:180-187 | the loop fills the power table with all powers and the logarithm table with all logarithms, entry 1 corrected to 0 at the end |
| AesTables.Tables.FMultIsMul | Museek/Mucipher/aes.cpp:130-136 | multiplication by logarithms, with its 8-bit wrap-around, is multiplication in the field |
| AesTables.Tables.FFMultIsMul | Museek/Mucipher/aes.cpp:138 | the guarded form of multiplication by tables is multiplication in the field for all factors, 0 included |
| AesTables.Tables.GenRoundConstants | Museek/Mucipher/aes.cpp:189-193 | the ten round constants are the powers of x of section 5.2 |
| AesTables.Tables.GenSBoxes | Museek/Mucipher/aes.cpp:195-201 | the boxes filled through the logarithm tables are the SBox of section 5.1.1 and its inverse, at all 256 places |
| AesTables.Tables.PutBox | Museek/Mucipher/aes.cpp:199-200 | an entry of each box is filled in and the earlier ones stay |
| AesTables.SBoxIndices | Museek/Mucipher/aes.cpp:199-200 | no two entries of the inverse box are written to the same place |
| AesTables.Tables.GenEntry | Museek/Mucipher/aes.cpp:203-238 | one pass fills entry i of the sixteen round tables and keeps the earlier entries |
| AesTables.Tables.GenRoundTables | Museek/Mucipher/aes.cpp:203-238 | all entries of the round tables are the shares of SubBytes, MixColumns and their inverses, with their rotations |
| AesTables.Tables.GenTabs | Museek/Mucipher/aes.cpp:170-239 | after the whole routine every table holds what the standard calls for |
| AesRounds.MixLookup | Museek/Mucipher/aes.cpp:140-144 | four lookups and a round key give a column of MixColumns plus key |
| AesRounds.InvMixLookup | Museek/Mucipher/aes.cpp:146-150 | four lookups in the decryption tables and a round key give a column of InvMixColumns plus key |
| AesRounds.StarXColumn | Museek/Mucipher/aes.cpp:241 | the masked shift multiplies all four bytes of a word by x at once |
| AesRounds.SmallMultiples | Museek/Mucipher/aes.cpp:243-251 | the constants 14, 11, 13 and 9 as sums of doublings |
| AesRounds.ImixColIsInvMixColumn | Museek/Mucipher/aes.cpp:243-251 | the word-parallel macro is InvMixColumns |
| Aes.LsBoxColumn | Museek/Mucipher/aes.cpp:152-156 | the word substitution is SubWord |
| Aes.FRnColumn | Museek/Mucipher/aes.cpp:140-144 | a full-round macro gives a column of SubBytes, ShiftRows, MixColumns and AddRoundKey |
| Aes.IRnColumn | Museek/Mucipher/aes.cpp:146-150 | a full-round macro of decryption gives a column of InvSubBytes, InvShiftRows, InvMixColumns and AddRoundKey |
| Aes.FRlColumn | Museek/Mucipher/aes.cpp:158-162 | a last-round macro gives a column without MixColumns |
| Aes.IRlColumn | Museek/Mucipher/aes.cpp:164-168 | a last-round macro of decryption gives a column without InvMixColumns |
| Aes.Context.Core | Museek/Mucipher/aes.cpp:256 | rotation, substitution and round constant of the expansion |
| Aes.Context.Head | Museek/Mucipher/aes.cpp:255-261 | the five lines all expansion macros share extend the expanded key by four words |
| Aes.Context.Loop6 | Museek/Mucipher/aes.cpp:263-271 | one pass for 24-byte keys adds six words of the schedule of section 5.2 |
| Aes.Context.Loop8 | Museek/Mucipher/aes.cpp:273-284 | one pass for 32-byte keys adds eight, with the extra substitution; the last one writes past E into D |
| Aes.Context.Expand | Museek/Mucipher/aes.cpp:303-325 | for each key length the words are those of the standard's key schedule |
| Aes.Context.Invert | Museek/Mucipher/aes.cpp:327-334 | D becomes the decryption schedule; what the last pass of the expansion wrote there is overwritten |
| Aes.Context.SetKey | Museek/Mucipher/aes.cpp:286-337 | every key length but 16, 24 and 32 is refused and leaves the context alone; otherwise both schedules are those of the key |
| Aes.Context.FNRound | Museek/Mucipher/aes.cpp:341-346 | a full round is the Round of section 5.1 |
| Aes.Context.FLRound | Museek/Mucipher/aes.cpp:348-352 | the last round is the standard's |
| Aes.Context.INRound | Museek/Mucipher/aes.cpp:394-399 | a full inverse round is that of section 5.3.5 |
| Aes.Context.ILRound | Museek/Mucipher/aes.cpp:401-405 | the last inverse round is the standard's |
| Aes.Context.FRounds | Museek/Mucipher/aes.cpp:365-384 | the rounds of all three key lengths, in pairs from one buffer to the other, are those of the cipher |
| Aes.Context.IRounds | Museek/Mucipher/aes.cpp:419-438 | the rounds of decryption are those of the equivalent inverse cipher |
| Aes.Context.Encrypt | Museek/Mucipher/aes.cpp:354-390 | the sixteen bytes written are Cipher of section 5.1 of the sixteen read, on the expanded key; no other byte changes, and input and output may overlap |
| Aes.Context.Decrypt | Museek/Mucipher/aes.cpp:407-444 | the bytes written are EqInvCipher of section 5.3.5 of the bytes read; no other byte changes |
| Aes.WriteBlock | Museek/Mucipher/aes.cpp:102-113 | words are stored in little-endian order |
| AesBlocks.CipherBlock | Museek/Mucipher/mucipher.h:41 | the padded length is the least multiple of 16 that holds the data |
| AesBlocks.Padded | Museek/Mucipher/mucipher.h:41 | padding fills up the last block and keeps the data in front |
| AesBlocks.PadBlock | Museek/Mucipher/aes.cpp:484-491 | the last block is the remaining bytes followed by pad bytes |
| AesBlocks.BlockCipher | Museek/Mucipher/aes.cpp:473-495 | every block of the padded data is enciphered, exactly the padded length is written, and the input may be the output |
| AesBlocks.CipherRest | Museek/Mucipher/aes.cpp:484-491 | the bytes that do not fill a block are enciphered behind the rest, with the pad bytes, and no byte further on changes |
| AesBlocks.BlockDecipher | Museek/Mucipher/aes.cpp:497-507 | every whole block is deciphered, and nothing behind is touched |
| AesBlocks.DecipherUndoesEncipher | Museek/Mucipher/aes.cpp:473-507 | deciphering what has been enciphered gives it back, for every key |
| AesBlocks.BufferRoundTrip | Museek/Mucipher/aes.cpp:473-507 | for every key, every data and every choice of pad bytes the data comes back in the first bytes |
| CipherKeys.CipherTables.NeedTables | Museek/Mucipher/aes.cpp:452-455 | the tables are filled once, before the first key is set |
| CipherKeys.CipherTables.CipherKeySha256 | Museek/Mucipher/aes.cpp:449-459 | the key is the SHA-256 digest of a phrase of less than 2^29 bytes, and the digest with a wrapped bit count beyond |
| CipherKeys.CipherTables.CipherKeyMd5 | Museek/Mucipher/aes.cpp:461-471 | the key is the MD5 digest of the phrase |
| UploadProofs.FirstFromIsFirst | Museek/museekd/uploadmanager.cpp:524-552 | a pass over the list finds the first candidate, and none only if there is none |
| UploadProofs.PickIsFirst | Museek/museekd/uploadmanager.cpp:524-552 | the choice falls on the earliest privileged upload that may start, else on the earliest that may |
| UploadModel.PickStarts | Museek/museekd/uploadmanager.cpp:524-552 | every start leaves one queued upload less, so the re-entrant search ends |
| UploadProofs.CheckKeeps | Museek/museekd/uploadmanager.cpp:524-552 | the search keeps the invariant, never exceeds the slots, changes only queued uploads into starting ones, and on return either no slot is free or no queued upload has an idle user |
| UploadProofs.MarkInactive | Museek/museekd/uploadmanager.cpp:424-441 | leaving the active states keeps one active upload a user |
| UploadProofs.MarkActive | Museek/museekd/uploadmanager.cpp:424-451 | entering one does if the user is idle or the upload has the slot |
| UploadProofs.SetInactive | Museek/museekd/uploadmanager.cpp:80-147 | entering any state that is not active, with the disconnection and the search that follow, keeps the invariant from any state |
| UploadProofs.SetActive | Museek/museekd/uploadmanager.cpp:80-147 | entering an active state does for an upload that has its user's slot or may take a free one |
| UploadProofs.CloseKeeps | Museek/museekd/uploadmanager.cpp:80-147 | closing gives the slot back and lets the next upload start |
| UploadProofs.DisconnectKeeps | Museek/museekd/uploadsocket.cpp:57-69 | a lost connection keeps the invariant and leaves no socket |
| UploadProofs.FailKeeps | Museek/museekd/uploadmanager.cpp:152-169 | giving up with an error keeps one upload a user, the slots and a settled queue |
| UploadHandlers.AddKeeps | Museek/museekd/uploadmanager.cpp:574-596 | after a request the upload is queued or starting, or had been stopped on purpose |
| UploadHandlers.AbortKeeps | Museek/museekd/uploadmanager.cpp:669-679 | aborting keeps the invariant and leaves the upload inactive |
| UploadHandlers.RemoveKeeps | Museek/museekd/uploadmanager.cpp:685-698 | removing an upload keeps the invariant and a settled queue |
| UploadHandlers.SetEachKeeps | Museek/museekd/uploadmanager.cpp:857-871 | a pass that takes uploads offline or queues them keeps the invariant |
| UploadHandlers.InitiateKeeps | Museek/museekd/uploadmanager.cpp:328-364 | announcing an upload to its peer keeps the invariant, whether its file opens or not |
| UploadHandlers.PeerReadyKeeps | Museek/museekd/uploadmanager.cpp:819-839 | a peer becoming reachable keeps the invariant: its offline uploads are queued and the one that was starting is announced |
| UploadHandlers.UnavailableKeeps | Museek/museekd/uploadmanager.cpp:844-852 | a peer that cannot be reached keeps the invariant and a settled queue |
| UploadHandlers.LoggedInKeeps | Museek/museekd/uploadmanager.cpp:763-778 | the server going away or coming back keeps the invariant and a settled queue |
| UploadHandlers.RequestedKeeps | Museek/museekd/peersocket.cpp:226-262 | a peer that asks for a file itself gets a slot only if one is free and the peer is idle |
| UploadHandlers.SocketClosedKeeps | Museek/museekd/uploadsocket.cpp:57-69 | the close of an upload's socket keeps the invariant and a settled queue |
| UploadHandlers.SocketCannotConnectKeeps | Museek/museekd/uploadsocket.cpp:74-83 | a socket that cannot connect keeps the invariant and a settled queue |
| UploadHandlers.StartAtKeeps | Museek/museekd/uploadsocket.cpp:200-238 | the position a peer asks for keeps the invariant, also one beyond the end of the file |
| UploadHandlers.SentKeeps | Museek/museekd/uploadsocket.cpp:153-175 | bytes going out keep the invariant, whether more can be read or not |
| UploadHandlers.ReplyTimeoutKeeps | Museek/museekd/uploadmanager.cpp:369-374 | a reply that never comes keeps the invariant and a settled queue |
| UploadReply.HarmlessKeeps | Museek/museekd/uploadmanager.cpp:783-814 | a permission keeps the invariant if the upload holds no socket, or closing that socket neither clears the upload nor starts another |
| UploadReply.ClearedBreaks | Museek/museekd/uploadmanager.cpp:80-147 | a permission for an upload that has sent everything and holds a socket breaks the invariant if finished uploads are cleared: it goes on off the list |
| UploadReply.RestartBreaks | Museek/museekd/uploadmanager.cpp:783-814 | a permission for an upload that holds a socket breaks the invariant if closing it lets another upload start |
| UploadReply.AllowedIff | Museek/museekd/uploadmanager.cpp:783-814 | a permission keeps the invariant if and only if the upload holds no socket, or closing that socket neither clears it nor starts another |
| UploadRuns.ReplyIff | Museek/museekd/uploadmanager.cpp:783-814 | a call of the reply handler, which finds the upload by user and ticket, keeps the invariant if and only if the reply is no such permission |
| UploadRuns.StepIff | Museek/museekd/uploadmanager.cpp:424-878 | every event keeps one upload a user, exactly recorded, a settled queue, and a full table that does not grow, if and only if it is not such a permission |
| UploadRuns.RunKeeps | Museek/museekd/uploadmanager.cpp:424-878 | every run without such permissions keeps one active upload a user, exactly the recorded one, and leaves no usable slot free |
| UploadRuns.RunWithinSlots | Museek/museekd/uploadmanager.cpp:876-878 | with a fixed number of slots no such run ever has more uploads than slots |
| UploadRuns.RunFromEmpty | Museek/museekd/uploadmanager.cpp:424-878 | in particular every such run of an empty manager ends with the invariant, and within a fixed number of slots |
| UploadReply.HarmlessOnlySocket | Museek/museekd/uploadmanager.cpp:783-814 | a permission that keeps the invariant changes nothing but the socket of its upload, and its position if that was beyond the end |
| UploadMessages.MessageIff | Museek/NewNet/nnevent.h:263-272 | a reply message calls the handler once for each connection there is when it comes, and all these calls keep the invariant if and only if it refuses, finds no waiting upload or no connection, or: with one connection the upload may take a socket, with several the socket made by the first call may be closed again |
| UploadMessages.TwiceAnnouncedRun | Museek/museekd/uploadmanager.cpp:328-374 | an upload announced, timed out and announced again on the same socket leaves the reply handler connected twice, because only the last connection is remembered |
| UploadMessages.SecondPermissionBreaks | Museek/museekd/uploadmanager.cpp:783-814 | from an empty manager, for all names, sizes and tickets, that run leads to a state in which one message calls the handler twice: the first permission keeps the invariant and the second breaks it |
| UploadEffects.FailEnds | Museek/museekd/uploadmanager.cpp:152-169 | a failed upload ends in the state of its failure and holds no socket, whatever its disconnection did before |
| UploadEffects.AbortEnds | Museek/museekd/uploadmanager.cpp:669-679 | an aborted upload ends aborted, or finished if it had sent everything over the socket it held |
| UploadEffects.ClosedEnds | Museek/museekd/uploadsocket.cpp:57-69 | a closed connection leaves the upload finished if and only if everything had been sent, else closed |
| UploadEffects.EnterRow | Museek/museekd/uploadmanager.cpp:80-147 | entering an inactive state changes an upload only in its state, and in its position if it finishes, whatever the search starts |
| UploadEffects.CannotConnectEnds | Museek/museekd/uploadsocket.cpp:74-83 | the state for a connection that cannot be made does not last: the disconnection that follows makes it closed, or finished |
| UploadEffects.InitiateEnds | Museek/museekd/uploadmanager.cpp:328-364 | an announced upload waits with its new ticket and the size found on opening the file, or ends in a local error |
| UploadEffects.StartEnds | Museek/museekd/uploadsocket.cpp:200-238 | a waiting upload runs from the position asked for if that is within the file and the file can be read, and ends in a local error if not |
| UploadEffects.SentEnds | Museek/museekd/uploadsocket.cpp:153-175 | a running upload moves on by what was sent, or ends in a local error |
| UploadEffects.RefusedEnds | Museek/museekd/uploadmanager.cpp:783-814 | a refused upload ends in the peer's error |
| UploadEffects.NoOvertaking | Museek/museekd/uploadmanager.cpp:524-552 | no upload overtakes: if one starts in a search, every earlier one in the order of service that might have started has a busy user at its end |
| UploadOutcomes.SetOthers | Museek/museekd/uploadmanager.cpp:80-147 | entering a state that is not active does no more to other uploads than start queued ones |
| UploadOutcomes.UnavailableEnds | Museek/museekd/uploadmanager.cpp:844-852 | the active upload of a peer that cannot be reached ends in the state for that, without socket and without slot; every other upload stays as it is or starts, and without an active upload nothing changes |
| UploadOutcomes.ReplyTimeoutEnds | Museek/museekd/uploadmanager.cpp:369-374 | an upload whose reply does not come in time ends in the state for a failed connection, without socket and slot |
| UploadOutcomes.AbortedEnds | Museek/museekd/uploadmanager.cpp:669-679 | the listed upload of this user and path ends aborted, or finished if it had sent everything over its socket, and gives its slot back; if there is none nothing changes |
| UploadOutcomes.RemovedEnds | Museek/museekd/uploadmanager.cpp:685-698 | a removed upload is off the list, not active and holds no socket and no slot |
| UploadOutcomes.AddedNew | Museek/museekd/uploadmanager.cpp:574-591 | a new request stands at the end of the list with its ticket, queued or starting, and no other upload does more than start |
| UploadOutcomes.AddedAgain | Museek/museekd/uploadmanager.cpp:592-596 | a request for a listed upload queues it without socket unless it had been aborted or had failed and is not forced; it falls off the list if and only if it held a socket, had sent everything and finished uploads are cleared |
| UploadOutcomes.QueuedListIff | Museek/museekd/uploadmanager.cpp:80-147 | queueing takes an upload off the list if and only if it held a socket, had sent everything and finished uploads are cleared |
| UploadOutcomes.DisconnectListIff | Museek/museekd/uploadsocket.cpp:57-69 | a closing socket clears its upload from the list if and only if everything had been sent and finished uploads are cleared |
| UploadOutcomes.FinishListIff | Museek/museekd/uploadmanager.cpp:131-135 | finishing clears an upload from the list if and only if finished uploads are cleared |
| UploadLost.RequestIsLost | Museek/museekd/uploadmanager.cpp:574-596 | for all names, sizes and tickets a run from an empty manager ends with a request queued on an upload that is off the list, where no search looks |
| UploadOutcomes.PeerOfflineRows | Museek/museekd/uploadmanager.cpp:857-871 | when a peer goes offline, its listed uploads that are queued, or active without transferring yet, go offline, and no other does more than start |
| UploadOutcomes.ServerGoneRows | Museek/museekd/uploadmanager.cpp:767-778 | when the server goes, exactly the listed uploads that are not active and have neither finished nor been aborted go offline, and nothing else changes |
| UploadOutcomes.ServerBackRows | Museek/museekd/uploadmanager.cpp:763-767 | when it comes back nothing happens by itself, since the queue was settled |
| UploadOutcomes.PeerReadyRows | Museek/museekd/uploadmanager.cpp:819-839 | when a peer becomes reachable its listed offline uploads are queued or start; then the one that is starting waits with its new ticket and size, or fails to open, and the others do no more than start |
| UploadOutcomes.RequestedEnds | Museek/museekd/peersocket.cpp:226-262 | a peer that asks for a file itself has it added like any other; then it gets the slot, the size, the ticket and a socket if and only if a slot is free, the peer is idle and the file opens |
| UploadOutcomes.SlotGiven | Museek/museekd/peersocket.cpp:250-262 | giving a slot changes one row |
| UploadOutcomes.ConnectThenReply | Museek/museekd/uploadmanager.cpp:795-798 | a reply on the socket of the last announcement takes that connection off again |
| UploadOutcomes.ForgottenStays | Museek/museekd/uploadmanager.cpp:795-798 | a connection that is no longer the last one made is taken off by no reply |
| UploadOutcomes.GoneTakesAll | Museek/NewNet/nnevent.h:186-201 | a socket takes its connections with it, and no others |
| UploadOutcomes.AnnouncementConnects | Museek/museekd/uploadmanager.cpp:328-364 | an announcement adds one connection to the peer's socket, and none to another |
| UploadOutcomes.SlotsEnds | Museek/museekd/uploadmanager.cpp:524-552 | a new number of slots is taken over, uploads do no more than start, and as many start as can |
| UploadOutcomes.SettingsEnds | Museek/museekd/uploadmanager.cpp:524-552 | new settings are taken over and change no upload |
| UploadQueue.CountedUpTo | Museek/museekd/uploadmanager.cpp:718-742 | what the counting loop counts up to the first match and after it |
| UploadQueue.ServiceOrderSorted | Museek/museekd/uploadmanager.cpp:524-552 | the order of service holds every queued upload once, privileged ones first |
| UploadQueue.QueueLengthIsPlace | Museek/museekd/uploadmanager.cpp:718-742 | the answer is the one-based place in the order of service of the first match, if that is queued and the asker's |
| UploadQueue.MatchesIff | Museek/museekd/uploadmanager.cpp:359-363 | an upload is found in the queue under its own path and under the one it is announced with, and under no other |
| UploadQueue.QueueLengthIff | Museek/museekd/uploadmanager.cpp:718-742 | for a queued upload of the asker that matches, the answer is its place if and only if nothing listed before it matches |
| UploadQueue.WrongUpload | Museek/museekd/uploadmanager.cpp:718-742 | the user plays no part in the match: a run from an empty manager to a state in which the answer is 1 for the upload that is third |
| Uploads.UploadManager.AddUploading | Museek/museekd/uploadmanager.cpp:446-451 | the user's entry becomes this upload |
| Uploads.UploadManager.RemoveUploading | Museek/museekd/uploadmanager.cpp:456-463 | the entry goes only if it is this upload |
| Uploads.UploadManager.OnUploadUpdated | Museek/museekd/uploadmanager.cpp:424-441 | active states enter the user into the maps, other states take out this upload and no other |
| Uploads.UploadManager.Announce | Museek/museekd/uploadmanager.cpp:80-147 | a state is stored and announced |
| Uploads.UploadManager.Choose | Museek/museekd/uploadmanager.cpp:524-552 | the choice is the first privileged upload that may start, else the first that may |
| Uploads.UploadManager.Check | Museek/museekd/uploadmanager.cpp:524-552 | the re-entrant search ends, and has started one upload after the other while a slot was free |
| Uploads.UploadManager.Find | Museek/museekd/uploadmanager.cpp:634-646 | the first upload with this user and path, or none |
| Uploads.UploadManager.FindByTicket | Museek/museekd/uploadmanager.cpp:651-663 | the first listed upload with this user and ticket, or none |
| Uploads.UploadManager.EnterState | Museek/museekd/uploadmanager.cpp:80-147 | the tail of setting a state, with clearing |
| Uploads.UploadManager.SetState | Museek/museekd/uploadmanager.cpp:80-147 | a state is entered with everything it sets off: the disconnection and its re-entrance, the search, the clearing |
| Uploads.UploadManager.OnDisconnected | Museek/museekd/uploadsocket.cpp:57-69 | an upload that had sent everything is finished, another closed, an error stays |
| Uploads.UploadManager.SetSocket | Museek/museekd/uploadmanager.cpp:174-190 | the old socket is stopped first |
| Uploads.UploadManager.Fail | Museek/museekd/uploadmanager.cpp:152-169 | no socket, then the error state |
| Uploads.UploadManager.Create | Museek/museekd/uploadmanager.cpp:42-66 | a new upload object, offline, at the end of the list; the others untouched |
| Uploads.UploadManager.Add | Museek/museekd/uploadmanager.cpp:574-596 | a new upload is registered and queued; a registered one is queued again unless it was stopped on purpose |
| Uploads.UploadManager.Abort | Museek/museekd/uploadmanager.cpp:669-679 | the upload loses its socket and, unless it has finished, is aborted |
| Uploads.UploadManager.Remove | Museek/museekd/uploadmanager.cpp:685-698 | the upload is aborted and taken off the list |
| Uploads.UploadManager.ConnectReply | Museek/museekd/uploadmanager.cpp:355 | the handler is connected once more, and only this connection is remembered |
| Uploads.UploadManager.DisconnectReply | Museek/museekd/uploadmanager.cpp:795-798 | the remembered connection is taken off the socket the message came on, if it is one of its own, and is forgotten in any case |
| Uploads.UploadManager.OnPeerGone | Museek/NewNet/nnevent.h:186-201 | the connections to a socket go with it |
| Uploads.UploadManager.EmitTransferReply | Museek/NewNet/nnevent.h:263-272 | the emission works on a copy of the connections: what it does is the run of as many calls as there were when it began |
| Uploads.UploadManager.Initiate | Museek/museekd/uploadmanager.cpp:328-364 | a starting upload opens its file, waits for the peer's reply and connects the reply handler to the peer's socket, or fails |
| Uploads.UploadManager.OnPeerSocketReady | Museek/museekd/uploadmanager.cpp:819-839 | offline uploads of the peer are queued one by one, and the one that is starting is announced |
| Uploads.UploadManager.OnPeerSocketUnavailable | Museek/museekd/uploadmanager.cpp:844-852 | the peer's active upload fails |
| Uploads.UploadManager.OnPeerOffline | Museek/museekd/uploadmanager.cpp:857-871 | the peer's uploads go offline, but for those in the listed states |
| Uploads.UploadManager.OnServerLoggedInStateChanged | Museek/museekd/uploadmanager.cpp:763-778 | logging in sets off a search; logging out takes every upload offline that is not the active one of its user |
| Uploads.UploadManager.Establish | Museek/museekd/uploadmanager.cpp:783-814 | a new socket takes the place of an old one |
| Uploads.UploadManager.OnPeerTransferReplyReceived | Museek/museekd/uploadmanager.cpp:783-814 | for a waiting upload the remembered connection is dropped, and it gets a socket and waits on, or fails with the peer's refusal |
| Uploads.UploadManager.OnTransferRequested | Museek/museekd/peersocket.cpp:226-262 | the upload is added, and gets a slot if one is free, the peer is idle and the file opens |
| Uploads.UploadManager.GiveSlot | Museek/museekd/peersocket.cpp:226-262 | the slot is given through the states of the source |
| Uploads.UploadManager.OnSocketClosed | Museek/museekd/uploadsocket.cpp:57-69 | the upload drops its socket and is finished or closed |
| Uploads.UploadManager.OnCannotConnect | Museek/museekd/uploadsocket.cpp:74-83 | the upload fails to connect unless it is in error |
| Uploads.UploadManager.FindPosition | Museek/museekd/uploadsocket.cpp:200-238 | a waiting upload starts at the position asked for, or fails |
| Uploads.UploadManager.OnDataSent | Museek/museekd/uploadsocket.cpp:153-175 | a running upload moves on, or fails when it cannot read on |
| Uploads.UploadManager.OnReplyTimeout | Museek/museekd/uploadmanager.cpp:369-374 | the upload fails to connect |
| Uploads.UploadManager.OnSlotsSet | Museek/museekd/uploadmanager.cpp:883-908 | a new number of slots sets off a search |
| Uploads.UploadManager.QueueLength | Museek/museekd/uploadmanager.cpp:718-742 | the counting loop gives the count whose meaning QueueLengthIff states |
| SharesTerms.MutateEnds | Museek/museekd/sharesdatabase.cpp:148-190 | exactly the listed separators, the dash and the star end a word; everything else is lower-cased |
| SharesTerms.WordsAreTokens | Museek/museekd/sharesdatabase.cpp:192-216 | the pass over a path finds exactly its tokens: the lower-cased longest stretches without separators |
| SharesTerms.TokenNotEmpty | Museek/museekd/sharesdatabase.cpp:200-214 | no word is empty |
| SharesTerms.ExcludedLower | Museek/museekd/sharesdatabase.cpp:229-288 | every text that a query leaves out is in lower case |
| SharesTerms.WrittenIsRead | Museek/museekd/sharesdatabase.cpp:229-288 | a query written from plain words, excluded texts and quoted phrases is broken up into the same terms |
| QueryTerms.TermsArePieces | Museek/museekd/sharesdatabase.cpp:249-284 | for every query: it is made of pieces, each with what ends it, and its terms are those of the pieces |
| QueryTerms.PiecesAreRead | Museek/museekd/sharesdatabase.cpp:249-284 | any way to cut a query into pieces at the ends of terms gives its terms, by what the pieces begin with and whether they hold a quote |
| QueryTerms.PieceEnds | Museek/museekd/sharesdatabase.cpp:262-281 | what ends a piece makes the one term it stands for |
| QueryTerms.SeparatorSplits | Museek/museekd/sharesdatabase.cpp:258-281 | two words with any separator between them are two words |
| QueryTerms.SeparatorIsSpace | Museek/museekd/sharesdatabase.cpp:258-281 | outside quotes every separator may be replaced by a space |
| QueryTerms.StarIsPhrase | Museek/museekd/sharesdatabase.cpp:265-269 | a word behind a star is a phrase |
| QueryTerms.CapitalsDoNotMatter | Museek/museekd/sharesdatabase.cpp:148-151 | capital letters in a query make no difference |
| QueryTerms.OpenQuoteIsLost | Museek/museekd/sharesdatabase.cpp:252-281 | a text behind a quote that is never closed is no term at all |
| QueryTerms.SeparatorsArePunctuation | Museek/museekd/sharesdatabase.cpp:153-190 | of the printable characters exactly those other than letters, digits, ? and | end a word, and all of these but the dash and the star separate terms everywhere |
| QueryTerms.LowerAlphabet | Museek/museekd/sharesdatabase.cpp:150-151 | the capital letters become the small ones in their order |
| Shares.FetchTouch | Museek/museekd/sharesdatabase.cpp:272 | looking a word up through operator[] inserts an empty entry and changes no answer |
| Shares.FetchInsert | Museek/museekd/sharesdatabase.cpp:205-213 | entering a file under a word changes that word's folder only |
| Shares.PostingIsTokens | Museek/museekd/sharesdatabase.cpp:192-216 | a file is in the index under a word if and only if the word is a token of its path, and with its own record |
| Shares.TouchKeeps | Museek/museekd/sharesdatabase.cpp:272 | any lookup in the index keeps the relation of index and flat list |
| Shares.SharesDatabase.AddWords | Museek/museekd/sharesdatabase.cpp:200-215 | entering one more path's words extends the relation by that file |
| Shares.SharesDatabase.UpdateWordMaps | Museek/museekd/sharesdatabase.cpp:192-216 | after the rebuild the index stands for the flat list |
| Shares.SharesDatabase.BreakUp | Museek/museekd/sharesdatabase.cpp:252-288 | the loop over the query gives the folders of its words, its exclusions and its phrases, or stops at a word that no file has |
| Shares.SharesDatabase.AnyIn | Museek/museekd/sharesdatabase.cpp:302-310 | whether an excluded text occurs |
| Shares.SharesDatabase.AllIn | Museek/museekd/sharesdatabase.cpp:320-323 | whether every phrase occurs |
| Shares.SharesDatabase.InAll | Museek/museekd/sharesdatabase.cpp:313-316 | whether the file is in every word's folder |
| Shares.SharesDatabase.NextPath | Museek/museekd/sharesdatabase.cpp:293-298 | going through the first word's folder in order of path meets its files in the order in which they are listed |
| Shares.SharesDatabase.Passes | Museek/museekd/sharesdatabase.cpp:300-324 | a file passes if and only if it holds no excluded text, is in every word's folder and holds every phrase |
| Shares.SharesDatabase.GatherWords | Museek/museekd/sharesdatabase.cpp:293-335 | the loop over the first word's folder, in order of path, adds the first 500 files that the scan accepts |
| Shares.SharesDatabase.GatherPhrases | Museek/museekd/sharesdatabase.cpp:336-357 | the loop over the flat list adds the first 500 files that hold every phrase |
| Shares.SharesDatabase.Search | Museek/museekd/sharesdatabase.cpp:229-358 | the search through the index answers as the definition without the index, for every query and every earlier result, and keeps the index |
| Shares.GatherPaths | Museek/museekd/sharesdatabase.cpp:325-333 | the paths added are exactly those of the first n files accepted |
| Shares.GatherSize | Museek/museekd/sharesdatabase.cpp:325-333 | the number of files added is the number of the first files accepted |
| Shares.SearchIsScan | Museek/museekd/sharesdatabase.cpp:229-358 | a query with a plain word, be it the empty one, gives min(500, m) of the m files that a linear scan accepts, the first ones in order |
| Shares.SearchIsExact | Museek/museekd/sharesdatabase.cpp:229-358 | up to 500 of them: a file is in the answer if and only if the scan accepts it |
| Shares.ContainsIff | Museek/museekd/sharesdatabase.cpp:308-328 | a text occurs in another if and only if that is some text, the text itself, and some text behind it |
| Shares.AnswerRecords | Museek/museekd/sharesdatabase.cpp:296-358 | a search keeps the files found before, adds files with their own records only, and for words replaces nothing found before |
| Shares.PhraseSearchIsScan | Museek/museekd/sharesdatabase.cpp:336-357 | a query of phrases alone equals the scan for the phrases; its exclusions are ignored |
| Shares.EmptyTermMatchesNone | Museek/museekd/sharesdatabase.cpp:265-279 | with an empty word in the query the scan accepts no file |
| Shares.DoubleSpaceFindsNothing | Museek/museekd/sharesdatabase.cpp:265-279 | one space too many between two terms is an empty word, and search and scan alike find nothing |
| SearchAgreement.PhraseSearchIff | Museek/museekd/sharesdatabase.cpp:336-357 | for a query of phrases without words, all files found in any list are files the scan accepts if and only if the query leaves out no text |
| SearchAgreement.SearchAgreesIff | Museek/museekd/sharesdatabase.cpp:229-358 | for every query, search and scan agree on all lists of up to 500 files if and only if the query has a word, or has phrases and leaves out no text, or has neither but leaves out the empty text |
| RateLimiter.DiffTimeRoundsDown | Museek/NewNet/util.h:26-43 | the difference by halves is the difference in microseconds rounded down to milliseconds |
| RateLimiter.LaterIffMicros | Museek/NewNet/nnratelimiter.cpp:62-67 | the comparison of times is that of microseconds |
| RateLimiter.Limiter.Transferred | Museek/NewNet/nnratelimiter.cpp:54-60 | an entry is added at the end |
| RateLimiter.Limiter.Flush | Museek/NewNet/nnratelimiter.cpp:69-78 | entries older than the history leave from the front |
| RateLimiter.Limiter.NextWindow | Museek/NewNet/nnratelimiter.cpp:80-114 | the reverse loop finds the last entry from which on the limit is reached, and the answer is the wait for it |
| RateLimiter.Limiter.TakeTurn | Museek/NewNet/nnreactor.cpp:252-265 | a socket moves a chunk only if the limiter answers 0 |
| RateLimiter.ZeroMeansRoom | Museek/NewNet/nnratelimiter.cpp:80-114 | an answer of 0 says that less than the limit has moved in the last 999 milliseconds |
| RateLimiter.ZeroIffRoom | Museek/NewNet/nnratelimiter.cpp:80-114 | the answer is 0 if and only if less than the limit has been recorded in the last 999 milliseconds |
| RateLimiter.WaitIffRoom | Museek/NewNet/nnratelimiter.cpp:80-114 | the answer is the least number of milliseconds after which the last 999 milliseconds hold less than the limit |
| RateLimiter.ZeroMovesNothing | Museek/NewNet/nnratelimiter.cpp:87-88 | a limit of 0 lets nothing through in any run |
| RateLimiter.ZeroWaitsAMinute | Museek/NewNet/nnratelimiter.cpp:87-88 | under a limit of 0 the answer is a wait of a minute |
| RateLimiter.UnlimitedMovesAll | Museek/NewNet/nnratelimiter.cpp:85-86 | without a limit every turn moves all it has |
| RateLimiter.FlushedIsRecent | Museek/NewNet/nnratelimiter.cpp:69-78 | no entry that a flush keeps is older than the history |
| RateLimiter.WaitIsLeast | Museek/NewNet/nnratelimiter.cpp:97-110 | a positive answer d is exact: e milliseconds later d - e are left, and 0 from d on and not before |
| RateLimiter.OldMakesNoDifference | Museek/NewNet/nnratelimiter.cpp:69-78 | entries older than the history change no later answer |
| RateLimiter.FlushChangesNothing | Museek/NewNet/nnratelimiter.cpp:69-114 | flushing never changes an answer, then or later |
| RateLimiter.MoveKeepsEven | Museek/NewNet/nnratelimiter.cpp:54-114 | a chunk moved where there was room keeps every window within the bound |
| RateLimiter.RunKeepsEven | Museek/NewNet/nnreactor.cpp:252-265 | every run of turns under a fixed limit, with a clock that never goes back, keeps every window of 999 milliseconds within the bound |
| RateLimiter.WindowBound | Museek/NewNet/nnclientsocket.cpp:87-124 | from a new limiter, every sliding window of 999 milliseconds carries at most limit - 1 + 1024 bytes |
| RateWindows.WindowBoundIff | Museek/NewNet/nnratelimiter.cpp:80-114 | at every limit from 1 on, the windows of w microseconds carry at most limit - 1 + 1024 bytes in every run if and only if w is at most 999000 |
| RateWindows.OverCarries | Museek/NewNet/nnratelimiter.cpp:97-110 | for every longer window and every limit a run of one-byte moves and a chunk 999.001 milliseconds later carries limit + 1024 bytes |
| RateWindows.SecondMayCarryMore | Museek/NewNet/nnratelimiter.cpp:97-110 | at every limit from 1 on some run moves limit + 1024 bytes within one second |
| Blocks.FoldConcat | Museek/Mucipher/sha256.cpp:272-281 | hashing whole blocks in two goes is hashing them in one |
| Blocks.AbsorbConcat | Museek/Mucipher/sha256.cpp:256-286 | it makes no difference where a message is cut into calls |
| Blocks.AbsorbShort | Museek/Mucipher/sha256.cpp:280-285 | data that does not fill the block only waits |
| Blocks.AbsorbLong | Museek/Mucipher/sha256.cpp:272-285 | data that fills it is taken block by block, and the rest waits |
| Blocks.Zeros | Museek/Mucipher/sha256.cpp:308-311 | how many zeros fill the last block but for the length |
| Blocks.ZerosLeast | Museek/Mucipher/sha256.cpp:308-311 | no fewer zeros do, as section 5.1.1 of FIPS 180-4 asks |
| Blocks.FinalState | Museek/Mucipher/sha256.cpp:288-314 | hashing a message and then its padding ends with the fold over the padded message |
| HashLogic.FastForms | Museek/Mucipher/sha.cpp:139-147 | the forms with fewer operations are Ch and Maj of section 4.1.1 of FIPS 180-4 |
| HashWords.ShiftInFour | Museek/Mucipher/sha256.cpp:60-71 | four bytes shifted in make a big-endian word, whatever the word held before |
| HashWords.BitsOfWords | Museek/Mucipher/sha256.cpp:296-306 | the eight bytes of a count in two words |
| Sha256.Context.constructor | Museek/Mucipher/sha256.cpp:241-254 | a new context has the initial hash value and hashed nothing |
| Sha256.Context.Load | Museek/Mucipher/sha256.cpp:84-90 | the 64 words are the message schedule of section 6.2.2 |
| Sha256.Context.EightRounds | Museek/Mucipher/sha256.cpp:97-231 | eight unrolled rounds, in which the names move instead of the values, are eight rounds of section 6.2.2 |
| Sha256.Context.Transform | Museek/Mucipher/sha256.cpp:78-239 | one block: the whole compression function |
| Sha256.Context.Count | Museek/Mucipher/sha256.cpp:264-268 | the bit count after more bytes, with the carry as the code computes it |
| Sha256.Context.TransformAll | Museek/Mucipher/sha256.cpp:277-278 | the loop takes exactly the whole blocks |
| Sha256.Context.Feed | Museek/Mucipher/sha256.cpp:270-285 | a call hashes its data behind what waits |
| Sha256.Context.Update | Museek/Mucipher/sha256.cpp:256-286 | whatever the cuts, the context stands where hashing the message so far leads |
| Sha256.Context.ExactIff | Museek/Mucipher/sha256.cpp:264-268 | a call keeps the count exact if and only if its data is under 2^29 bytes or its low part carries over |
| Sha256.CountIff | Museek/Mucipher/sha256.cpp:264-268 | the two words of the count hold the right sum modulo 2^64 if and only if the length is under 2^29 bytes or its low part carries over |
| Sha256.CountIndex | Museek/Mucipher/sha256.cpp:262-268 | the low word says where in a block the message ends, even where the count is wrong |
| Sha256.Context.Bits | Museek/Mucipher/sha256.cpp:296-306 | the bytes of the count |
| Sha256.Context.Finish | Museek/Mucipher/sha256.cpp:308-314 | the padding is a one, the least number of zeros and the count |
| Sha256.Context.Output | Museek/Mucipher/sha256.cpp:316-323 | the digest in big-endian order |
| Sha256.Context.Final | Museek/Mucipher/sha256.cpp:288-327 | with an exact count the digest is SHA-256 of everything hashed, for any split into calls |
| Sha256.Sha256Block | Museek/Mucipher/sha256.cpp:329-334 | in one call, SHA-256 for less than 2^29 bytes, and the digest with a wrapped count beyond |
| Sha256.OneCallIff | Museek/Mucipher/sha256.cpp:264-268 | one call pads with the right length if and only if there are less than 2^29 bytes |
| Sha1.Context.Init | Museek/Mucipher/sha.cpp:41-57 | a context started over has hashed nothing |
| Sha1.Context.Expand | Museek/Mucipher/sha.cpp:128-130 | the message schedule of section 6.1.2 |
| Sha1.Context.TwentyRounds | Museek/Mucipher/sha.cpp:138-153 | each of the four loops is twenty rounds of section 6.1.2 |
| Sha1.Context.HashBlock | Museek/Mucipher/sha.cpp:124-160 | one block: the whole compression function |
| Sha1.Context.Take | Museek/Mucipher/sha.cpp:66-68 | a byte is shifted into the word in work, over what an earlier block left there |
| Sha1.WordFilled | Museek/Mucipher/sha.cpp:66-67 | four bytes shifted in fill a word, whatever it held before |
| Sha1.Context.AddByte | Museek/Mucipher/sha.cpp:65-74 | one byte of the loop |
| Sha1.Context.Count | Museek/Mucipher/sha.cpp:72-73 | the count in two words stays right modulo 2^64 |
| Sha1.CountByte | Museek/Mucipher/sha.cpp:72-73 | the carry shows as a low word below 8 |
| Sha1.Context.Update | Museek/Mucipher/sha.cpp:60-75 | whatever the cuts, the context stands where hashing the message so far leads |
| Sha1.Context.Finish | Museek/Mucipher/sha.cpp:86-97 | the padding is a one, zeros until 56 bytes wait, and the length |
| Sha1.Context.Length | Museek/Mucipher/sha.cpp:86-93 | the length is taken before the padding |
| Sha1.Context.Output | Museek/Mucipher/sha.cpp:101-104 | the digest, shifted out of the words |
| Sha1.Context.Final | Museek/Mucipher/sha.cpp:78-110 | the digest is SHA-1 of everything hashed, for any split into calls, and the context starts over |
| Sha1.Sha1Block | Museek/Mucipher/sha.cpp:113-119 | SHA-1 in one call |
| WideWords.BitwiseKeep | Museek/Mucipher/md5.cpp:40-43 | the low bits of a bitwise result depend on the low bits of its operands only |
| WideWords.AddKeep | Museek/Mucipher/md5.cpp:48-51 | the low bits of a sum depend on the low bits of its terms only |
| WideWords.ShlKeep | Museek/Mucipher/md5.cpp:50 | the low bits of a number shifted up depend on its low bits only |
| WideWords.OrIsSum | Museek/Mucipher/md5.cpp:67-72 | numbers whose bits do not meet are put side by side by or |
| Md5Wide.ChoiceForm | Museek/Mucipher/md5.cpp:40 | F with fewer operations is F of RFC 1321, on words of any width |
| Md5Wide.FKeep | Museek/Mucipher/md5.cpp:40 | F on words of any width agrees with F of RFC 1321 on the low 32 bits |
| Md5Wide.GKeep | Museek/Mucipher/md5.cpp:41 | G on words of any width agrees with G of RFC 1321 on the low 32 bits |
| Md5Wide.HKeep | Museek/Mucipher/md5.cpp:42 | H on words of any width agrees with H of RFC 1321 on the low 32 bits |
| Md5Wide.IKeep | Museek/Mucipher/md5.cpp:43 | I on words of any width, whose complement fills the high bits, agrees with I of RFC 1321 on the low 32 bits |
| Md5Wide.RotateKeep | Museek/Mucipher/md5.cpp:50 | the half-masked rotation is the 32-bit rotation on the low 32 bits |
| Md5Wide.StepKeep | Museek/Mucipher/md5.cpp:48-51 | every step on words of any width from 32 bits on agrees with the 32-bit step modulo 2^32 |
| Md5Wide.StepsKeep | Museek/Mucipher/md5.cpp:100-170 | all 64 steps on words of any width agree with those of RFC 1321 modulo 2^32 |
| Md5Wide.CompressKeep | Museek/Mucipher/md5.cpp:94-178 | a block compressed on words of any width agrees with RFC 1321 modulo 2^32 |
| Md5.SetWordIsSum | Museek/Mucipher/md5.cpp:67-72 | four bytes put side by side are the little-endian word |
| Md5.Context.SetWords | Museek/Mucipher/md5.cpp:67-75 | the sixteen words of a block |
| Md5.Context.FourSteps | Museek/Mucipher/md5.cpp:100-170 | four steps in which every register keeps its name |
| Md5.Context.OneBlock | Museek/Mucipher/md5.cpp:94-178 | one pass of the loop compresses a block, modulo 2^32 |
| Md5.Context.Body | Museek/Mucipher/md5.cpp:81-186 | the loop compresses one or more blocks |
| Md5.Context.Tail | Museek/Mucipher/md5.cpp:225-230 | whole blocks are taken from the data and the rest is kept |
| Md5.Context.Count | Museek/Mucipher/md5.cpp:205-207 | the count in 29 bits and a word above |
| Md5.CountOn | Museek/Mucipher/md5.cpp:205-209 | the count in 29 bits and a word above goes on with the length of the message |
| Md5.Context.Feed | Museek/Mucipher/md5.cpp:209-230 | a call hashes its data behind what waits |
| Md5.Context.Update | Museek/Mucipher/md5.cpp:199-231 | whatever the cuts, the low 32 bits stand where hashing the message so far leads |
| Md5.Context.Close | Museek/Mucipher/md5.cpp:237-248 | a one and zeros, in one block or two |
| Md5.Context.Finish | Museek/Mucipher/md5.cpp:233-262 | the padded message has been hashed |
| Md5.LengthOctets | Museek/Mucipher/md5.cpp:252-260 | the shifted low part and the high part are the length in bits, in eight bytes |
| Md5.Context.Final | Museek/Mucipher/md5.cpp:233-282 | the digest is MD5 of RFC 1321 of everything hashed, for any split into calls and any width of words |
| Md5.Md5Block | Museek/Mucipher/md5.cpp:284-290 | MD5 in one call, for any width |
| PairModel.TransferKeeps | libevent/libevent/bufferevent_pair.c:150-197 | a transfer keeps the order of bytes, leaves nothing to hand over this way, and changes nothing the other way |
| PairModel.TalkKeeps | libevent/libevent/bufferevent_pair.c:199-227 | handing over what there is keeps the order of bytes and settles both directions |
| PairModel.EnableKeeps | libevent/libevent/bufferevent_pair.c:229-255 | enabling settles both directions it names |
| PairModel.WriteKeeps | libevent/libevent/bufferevent_pair.c:209-227 | a write keeps the order of bytes and leaves nothing that could be handed over |
| PairModel.ReadKeeps | libevent/libevent/bufferevent.c:115-131 | a read, with the watermark's callback, keeps the order of bytes and leaves nothing that could be handed over |
| PairModel.SetWatermarkKeeps | libevent/libevent/bufferevent.c:539-585 | a new high mark does the same, whether it suspends reading or lets it go on |
| PairModel.UnsuspendReadKeeps | libevent/libevent/bufferevent.c:78-88 | letting reading go on keeps the order of bytes and settles both directions |
| PairModel.UnsuspendWriteKeeps | libevent/libevent/bufferevent.c:102-112 | letting writing go on keeps the order of bytes and settles both directions |
| PairModel.FlushKeeps | libevent/libevent/bufferevent_pair.c:281-307 | a flush keeps the order of bytes and settles both directions |
| PairModel.CallKeeps | libevent/libevent/bufferevent_pair.c:150-307 | every call keeps the order, leaves nothing that could be handed over, and but for a flush pushes no input above its mark |
| PairModel.RunKeeps | libevent/libevent/bufferevent_pair.c:112-307 | in every run no byte is lost, doubled or moved out of order, and none waits without cause |
| PairModel.RunBelowMarks | libevent/libevent/bufferevent_pair.c:160-168 | with marks that stay and no flush, no run fills an input above its mark |
| PairModel.RunFromFresh | libevent/libevent/bufferevent_pair.c:112-307 | on a new pair, whatever is called on either end, what has been read is a prefix of what was written at the other end, and bytes wait below a reader's mark only while writing is suspended, both ways |
| PairModel.EnableWaitsIff | libevent/libevent/bufferevent.c:430-450 | enabling writing leaves bytes waiting below the mark of a partner that reads if and only if writing is suspended and there are bytes that the partner would take |
| PairModel.SuspendedWriteWaits | libevent/libevent/bufferevent.c:430-450 | a run on a new pair leads to bytes that wait |
| PairModel.FlushEmptiesIff | libevent/libevent/bufferevent_pair.c:281-307 | after a flush an output is empty if and only if it was, or its direction was asked for and the partner's input has no mark, is at it already, or takes all of it below; otherwise that input ends exactly at its mark; for both directions |
| PairEffects.CallSettings | libevent/libevent/bufferevent.c:66-585 | every call changes the settings it names, and what has been sent and got, as it says, and no others of either end |
| PairEffects.MarkIsSet | libevent/libevent/bufferevent.c:539-585 | a new mark is set: above it reading is suspended, and below it or without one it goes on until the input is at the mark; just at the mark nothing else changes |
| PairEffects.CallMark | libevent/libevent/bufferevent.c:115-131 | every call keeps the watermark suspending reading only at the mark or above, and always above |
| PairEffects.RunMarkFromFresh | libevent/libevent/bufferevent.c:115-131 | in every run on a new pair, flushes included, in which no caller takes the watermark's reason for his own, the watermark suspends reading only at the mark or above, and always above it |
| PairEffects.ArrivalLooks | libevent/libevent/bufferevent.c:115-131 | whenever a call makes bytes arrive at an end with a mark, or takes some from it, the watermark suspends that end afterwards if and only if its input is at the mark or above |
| PairEffects.CallMovesOnly | libevent/libevent/bufferevent_pair.c:150-255 | but for a flush, bytes come only to an end that reads and is not suspended, from one that writes |
| PairEffects.MarkStopsWrite | libevent/libevent/bufferevent.c:554-567 | on a new pair whose peer reads and sets a mark below the length of what is written, exactly the bytes up to the mark arrive, the rest waits and reading is suspended |
| PairEffects.WrittenIsGot | libevent/libevent/bufferevent_pair.c:150-227 | on a new pair whose peer reads, what is written is what the peer gets |
| BuffereventPair.Bufferevent.NewPair | libevent/libevent/bufferevent_pair.c:112-148 | two linked ends with nothing in them |
| BuffereventPair.Bufferevent.RemoveBuffer | libevent/libevent/bufferevent_pair.c:150-197 | bytes move at once and then the watermark's callback runs |
| BuffereventPair.Bufferevent.BeTransfer | libevent/libevent/bufferevent_pair.c:150-197 | bytes move up to the partner's mark, the callback's re-entrance included |
| BuffereventPair.Bufferevent.InputChanged | libevent/libevent/bufferevent.c:115-131 | the watermark's callback |
| BuffereventPair.Bufferevent.SuspendReading | libevent/libevent/bufferevent.c:66-76 | a reason to suspend reading is added, and nothing else changes |
| BuffereventPair.Bufferevent.UnsuspendReading | libevent/libevent/bufferevent.c:78-88 | a reason to suspend reading goes; once none is left the partner's bytes are taken |
| BuffereventPair.Bufferevent.SuspendWriting | libevent/libevent/bufferevent.c:90-100 | a reason to suspend writing is added, and nothing else changes |
| BuffereventPair.Bufferevent.UnsuspendWriting | libevent/libevent/bufferevent.c:102-112 | a reason to suspend writing goes; once none is left bytes are handed over |
| BuffereventPair.Bufferevent.BeEnable | libevent/libevent/bufferevent_pair.c:229-255 | what waits is handed over in the directions named |
| BuffereventPair.Bufferevent.EnableEvents | libevent/libevent/bufferevent.c:429-450 | the flags are set, and what waits is handed over in the directions that are not suspended |
| BuffereventPair.Bufferevent.DisableEvents | libevent/libevent/bufferevent.c:520-533 | the flags go, and nothing moves |
| BuffereventPair.Bufferevent.WriteBytes | libevent/libevent/bufferevent.c:399-406 | the bytes are added to the output and handed over if the partner reads |
| BuffereventPair.Bufferevent.ReadBytes | libevent/libevent/bufferevent.c:417-421 | the first bytes of the input are returned, and more is taken if that lets reading go on |
| BuffereventPair.Bufferevent.SetReadWatermark | libevent/libevent/bufferevent.c:539-585 | the mark is set, and reading is suspended above it and goes on below |
| BuffereventPair.Bufferevent.FlushEvents | libevent/libevent/bufferevent_pair.c:281-307 | bytes move in the directions named, above the mark if it is reached |
| BuffereventPair.TransferIsRemove | libevent/libevent/bufferevent_pair.c:150-197 | the callbacks that a move sets off find nothing more to move |
| Octets.UnpackPack | Museek/museekd/networkmessage.cpp:84-118 | a number that fits comes back from its bytes |
| NetBuffer.Buffer.constructor | Museek/NewNet/nnbuffer.cpp:26-28 | an empty buffer |
| NetBuffer.Buffer.Copy | Museek/NewNet/nnbuffer.cpp:30-33 | a copy has the same bytes in memory of its own |
| NetBuffer.Buffer.Compact | Museek/NewNet/nnbuffer.cpp:54-59 | moving the bytes to the front keeps them and frees the room before them |
| NetBuffer.Buffer.Grow | Museek/NewNet/nnbuffer.cpp:60-67 | larger memory keeps them and leaves room for n bytes, for sizes that fit an int |
| NetBuffer.Buffer.Append | Museek/NewNet/nnbuffer.cpp:49-73 | the bytes are put behind those there, however room is made |
| NetBuffer.Buffer.Seek | Museek/NewNet/nnbuffer.h:86-91 | the first n bytes leave the buffer |
| NetBuffer.Buffer.Clear | Museek/NewNet/nnbuffer.h:101-104 | no bytes are left in the buffer |
| NetBuffer.Buffer.Assign | Museek/NewNet/nnbuffer.cpp:35-42 | the other buffer's bytes take the place of these; a buffer assigned to itself is emptied |
| Frames.Parse | Museek/museekd/messageprocessor.cpp:27-74 | a frame is taken only if it is all there |
| Frames.MessageProcessor.ParseMessage | Museek/museekd/messageprocessor.cpp:27-74 | the first message is emitted and taken, with 32-bit wrap-around, or nothing happens |
| Frames.MessageProcessor.OnDataReceived | Museek/museekd/messageprocessor.h:65-71 | the loop does what Drain says: the messages emitted, the bytes left, or that it never ends |
| Frames.MessageProcessor.SendMessage | Museek/museekd/usersocket.cpp:190-200 | a message goes out behind its length |
| Frames.ParseStays | Museek/museekd/messageprocessor.cpp:27-74 | a frame that is there stays the same when more arrives |
| Frames.DrainConcat | Museek/museekd/messageprocessor.h:65-71 | parsing an arrival behind what was left is parsing everything at once |
| Frames.CutsDoNotMatter | Museek/museekd/messageprocessor.h:65-71 | however a stream is cut into arrivals, the messages, the bytes left and whether the loop ends are the same |
| Frames.FramesComeBack | Museek/museekd/usersocket.cpp:190-200 | a stream of framed messages and the start of another gives back the messages and leaves that start |
| Frames.StreamArrives | Museek/museekd/usersocket.cpp:190-200 | a stream of framed messages and the start of another, however it is cut into arrivals, gives exactly these messages and leaves that start |
| Frames.LengthIsDataIff | Museek/museekd/messageprocessor.cpp:44-68 | a message has as many bytes as it claims if and only if its frame has room for the code and four more do not wrap |
| Frames.ShortFrameClaims | Museek/museekd/messageprocessor.cpp:44-68 | a frame too short for its code takes the code from what follows it, has no data and claims nearly 2^32 bytes |
| Frames.PassTakesFour | Museek/museekd/messageprocessor.cpp:51-73 | below a length of 2^32 - 4 every pass takes at least four bytes, so the loop ends |
| Frames.StuckIff | Museek/museekd/messageprocessor.cpp:51-73 | a pass takes nothing if and only if the length is exactly 2^32 - 4 |
| Frames.StuckForEver | Museek/museekd/messageprocessor.h:65-71 | on a frame of length 2^32 - 4 the loop never ends |
| KeyMaps.PutNext | Museek/Muhelp/DirEntry.cc:196-214 | entries of a sorted map put in one by one make the map again |
| MapLaws.PutAllSizeIff | Museek/Muhelp/DirEntry.cc:196-214 | no entry is lost if and only if all have keys of their own |
| MapLaws.PutAllEntries | Museek/Muhelp/DirEntry.cc:274-284 | if no two entries contradict each other the map holds exactly them |
| ShareTree.FileBack | Museek/Muhelp/DirEntry.cc:205-213 | a saved file entry is loaded as it was, with the size that comes back |
| ShareTree.FilesBack | Museek/Muhelp/DirEntry.cc:202-214 | the saved files of a folder are loaded into a map with the same names, with the sizes that come back |
| ShareTree.FoldersBack | Museek/Muhelp/DirEntry.cc:196-201 | the saved folders are loaded under their paths, in the same order and each as it comes back |
| ShareTree.TreeReloads | Museek/Muhelp/DirEntry.cc:132-216 | a share tree is loaded as it was saved, but for the sizes and times that come back changed, and exactly what followed it is left |
| ShareTree.TreeBackIff | Museek/Muhelp/DirEntry.cc:132-216 | a share tree is loaded unchanged if and only if all its sizes are below 2^31 and its times below 2^32 |
| ShareTree.OffLoadedForm | Museek/Muhelp/DirEntry.cc:112-119 | eight bytes shifted as ints, with shift counts modulo 32, and summed modulo 2^64 give the sum of the two halves of a size as signed 32-bit numbers |
| ShareTree.OffBackIff | Museek/Muhelp/DirEntry.cc:112-119 | a size of up to eight bytes is given back by that loop if and only if it is below 2^31 |
| ShareStore.ByteQueue.PushNumber | Museek/Muhelp/DirEntry.cc:72-84 | a number byte by byte |
| ShareStore.ByteQueue.PushText | Museek/Muhelp/DirEntry.cc:86-91 | a text behind its length |
| ShareStore.ByteQueue.PushFile | Museek/Muhelp/DirEntry.cc:151-160 | a file entry |
| ShareStore.PackEntry | Museek/Muhelp/DirEntry.cc:132-163 | the recursion with queues of its own pushes the tree's bytes |
| ShareStore.PopNumber | Museek/Muhelp/DirEntry.cc:103-110 | a number popped byte by byte |
| ShareStore.UnpackOffFrom | Museek/Muhelp/DirEntry.cc:112-119 | the loop over eight bytes, each popped, shifted and added modulo 2^64 |
| ShareStore.UnpackTextFrom | Museek/Muhelp/DirEntry.cc:121-130 | a text |
| ShareStore.UnpackFileFrom | Museek/Muhelp/DirEntry.cc:205-212 | a file entry |
| ShareStore.UnpackFilesFrom | Museek/Muhelp/DirEntry.cc:202-214 | the files into their map |
| ShareStore.UnpackFoldersFrom | Museek/Muhelp/DirEntry.cc:196-201 | the folders into their map, each under its path |
| ShareStore.UnpackEntry | Museek/Muhelp/DirEntry.cc:185-216 | loading in place is UnpackTree, and breaks off where the bytes end |
| ShareFolds.FoldKeepsIff | Museek/Muhelp/DirEntry.cc:51-70 | folding a tree keeps every folder if and only if all have paths of their own, and then is putting them in one by one |
| ShareFolds.FoldAllKeepsIff | Museek/Muhelp/DirEntry.cc:51-70 | folding from the root keeps every folder if and only if all have paths of their own, and then is putting them in one by one |
| ShareFolds.FlatKeyOneWay | Museek/Muhelp/DirEntry.cc:274-284 | a flat name gives back the folder's path and the file's name if the name has no backslash |
| ShareFolds.FlattenIff | Museek/Muhelp/DirEntry.cc:274-284 | the flat list holds exactly the files of the tree's folders, each under its folder's path |
| ShareFolds.FoldFlattenSame | Museek/Muhelp/DirEntry.cc:51-284 | folding first makes no difference to it |
| ShareFolds.SharesReplyKeepsIff | Museek/Muhelp/DirEntry.cc:250-272 | no directory is lost on the way to a user who browses if and only if the network can tell the paths apart |
| ShareFolds.BrowsingSeesTree | Museek/museekd/peermessages.h:82-118 | that user sees exactly the tree's folders with their files, each under the path the network writes |
| ShareLists.FolderList.Fold | Museek/Muhelp/DirEntry.cc:51-70 | a folder and all below it are added in place, but nothing of one whose path is there |
| ShareLists.FolderList.FoldFolders | Museek/Muhelp/DirEntry.cc:67-69 | the loop over the folders |
| ShareLists.FileMap.Flatten | Museek/Muhelp/DirEntry.cc:274-284 | flattening in place puts in the flat list |
| ShareLists.NetworkPack | Museek/Muhelp/DirEntry.cc:250-272 | the bytes sent are MakeSharesReply of the folders |
| PeerMessages.FolderReplyBounded | Museek/museekd/peermessages.h:350-388 | on any bytes, all loops over a list of folders together make no more passes than there are bytes, whatever counts are claimed |
| PeerMessages.OtherRepliesBounded | Museek/museekd/peermessages.h:167-241 | on any bytes, the loops over a list of shares, and those of each of the two parses of a search reply, make no more passes than there are bytes |
| PeerMessages.FilesBack | Museek/museekd/peermessages.h:146-159 | made files are parsed as they were, into the map |
| PeerMessages.DirsBack | Museek/museekd/peermessages.h:325-346 | made directories are parsed as they were, with slashes turned |
| PeerMessages.FoldersBack | Museek/museekd/peermessages.h:323-386 | made folders are parsed as they were, but for those without directories |
| PeerMessages.TranslatedBackIff | Museek/museekd/peermessages.h:143-165 | a map comes back under its names if and only if none has a slash |
| PeerMessages.FolderReplyBack | Museek/museekd/peermessages.h:321-388 | a made list of folders is parsed to the last byte as Received says, with one pass for every folder, directory, file and attribute |
| PeerMessages.FolderReplyIff | Museek/museekd/peermessages.h:321-388 | a list of folders comes back unchanged if and only if every folder holds a directory and no directory's name has a slash |
| PeerMessages.SearchReplyBack | Museek/museekd/peermessages.h:143-241 | a made search reply is never parsed a second time, and comes back but for its slashes |
| PeerMessages.SearchReplyIff | Museek/museekd/peermessages.h:143-241 | a search reply comes back unchanged if and only if no file name has a slash |
| PeerMessages.SharesReplyBack | Museek/museekd/peermessages.h:82-118 | a made list of shares is parsed to the last byte, with slashes turned |
| PeerMessages.AttributesStop | Museek/museekd/peermessages.h:98-104 | a loop over attributes stops before its count is up only where fewer than four bytes are left |
| PeerMessages.FilesStop | Museek/museekd/peermessages.h:176-201 | a loop over files stops before its count is up only at the end of the bytes, and takes a pass for each file |
| PeerMessages.DirsStop | Museek/museekd/peermessages.h:85-112 | a loop over directories stops before its count is up only where fewer than four bytes are left, and takes a pass for each directory |
| PeerMessages.FoldersStop | Museek/museekd/peermessages.h:350-388 | a loop over folders stops before its count is up only where fewer than four bytes are left, and takes a pass for each folder |
| PeerMessages.FolderAdds | Museek/museekd/peermessages.h:350-388 | the directories of a folder are added to those named under it before, whatever else the message holds |
| PeerMessages.FolderTwice | Museek/museekd/peermessages.h:350-388 | a folder that a message names twice has the directories of both places |
| PeerMessages.AttributesAt | Museek/museekd/peermessages.h:153-158 | attribute k is sent as its number and then its value, four bytes each |
| PeerMessages.AttributesSize | Museek/museekd/peermessages.h:153-158 | attributes take eight bytes each |
| PeerMessages.FileEnds | Museek/museekd/peermessages.h:149-158 | a file entry begins with a 1 and ends with its attributes, numbered from 0 on |
| PeerMessages.ShortFilesBack | Museek/museekd/peermessages.h:209-241 | files with sizes in four bytes come back from the second parse |
| PeerMessages.ShortReplyBack | Museek/museekd/peermessages.h:167-241 | a reply with such files comes back whenever the first parse still wants files, with the length of its queue in eight bytes or in four |
| PeerMessages.ShortSizeMisread | Museek/museekd/peermessages.h:185-198 | read with eight bytes, a size of four takes the length of the extension for its upper half |
| PeerMessages.OneShortFileMisread | Museek/museekd/peermessages.h:176-241 | so a reply of one such file is not parsed again, and its size comes back wrong if it has an extension |
| Octets.PackAt | Museek/museekd/networkmessage.cpp:84-118 | byte k of a packed number is its digit k to the base 256 |
| NetworkMessages.NetworkMessage.PackNumber | Museek/museekd/networkmessage.cpp:84-118 | a number in little-endian order |
| NetworkMessages.NetworkMessage.PackString | Museek/museekd/networkmessage.cpp:30-46 | a string behind its length, slashes turned if asked for |
| NetworkMessages.NetworkMessage.UnpackNumber | Museek/museekd/networkmessage.cpp:120-161 | a number, or 0 with nothing taken if there are too few bytes |
| NetworkMessages.NetworkMessage.UnpackString | Museek/museekd/networkmessage.cpp:163-183 | a string, or none, with its length taken |
| NetworkMessages.NetworkMessage.ParseAttributeList | Museek/museekd/peermessages.h:98-104 | a guarded loop over attributes |
| NetworkMessages.NetworkMessage.ParseFileEntry | Museek/museekd/peermessages.h:185-198 | a file entry |
| NetworkMessages.NetworkMessage.ParseFileList | Museek/museekd/peermessages.h:176-201 | a guarded loop over files, and how many it still wanted |
| NetworkMessages.NetworkMessage.ParseDirList | Museek/museekd/peermessages.h:85-112 | a guarded loop over directories |
| NetworkMessages.NetworkMessage.ParseShares | Museek/museekd/peermessages.h:82-113 | a list of shares |
| NetworkMessages.NetworkMessage.ParseFolders | Museek/museekd/peermessages.h:350-388 | the nested loops over folders |
| NetworkMessages.NetworkMessage.ParseReplyEnd | Museek/museekd/peermessages.h:202-207 | the end of a search reply, with a queue length of eight bytes or four |
| NetworkMessages.NetworkMessage.ParseSearch | Museek/museekd/peermessages.h:167-241 | a search reply is parsed, and once more with short sizes if it runs out of bytes before its files |
| NetworkMessages.NetworkMessage.MakeFileEntry | Museek/museekd/peermessages.h:149-158 | the bytes of a file entry, its attributes numbered |
| NetworkMessages.NetworkMessage.MakeFolders | Museek/museekd/peermessages.h:321-348 | the bytes of a list of folders |
| NetworkMessages.NetworkMessage.MakeSearch | Museek/museekd/peermessages.h:143-165 | the bytes of a search reply |
| Arc4.SwapKeeps | libevent/libevent/arc4random.c:116-119 | exchanging two places keeps a permutation |
| Arc4.EveryByteThere | libevent/libevent/arc4random.c:96-105 | a permutation holds every byte |
| Arc4.CallKeeps | libevent/libevent/arc4random.c:96-122 | every call keeps a permutation |
| Arc4.RunKeeps | libevent/libevent/arc4random.c:96-421 | every run of initialising, mixing in and drawing bytes keeps a permutation of all bytes |
| Arc4.MixedIsKsa | libevent/libevent/arc4random.c:107-122 | mixing into a fresh table goes through the states of RC4's key schedule |
| Arc4.FirstMixIsKeySchedule | libevent/libevent/arc4random.c:107-122 | mixing a key into a fresh table gives the table of RC4's key schedule |
| Arc4.Arc4Stream.Init | libevent/libevent/arc4random.c:96-105 | the identity, in place |
| Arc4.Arc4Stream.MixIn | libevent/libevent/arc4random.c:107-122 | 256 rounds of mixing in place, with 8-bit wrap-around |
| Arc4.Arc4Stream.GetByte | libevent/libevent/arc4random.c:409-421 | the next state and its byte, which together are a round of RC4's loop |
| Arc4.Arc4Stream.GetWord | libevent/libevent/arc4random.c:423-434 | four bytes as a word |
| Arc4.Arc4Stream.Fill | libevent/libevent/arc4random.c:481-492 | a buffer is filled from its end on, with the bytes drawn |
| Arc4.Arc4Stream.Discard | libevent/libevent/arc4random.c:389-390 | the bytes after stirring are thrown away |
| Rc4.DrawnIsGenerated | libevent/libevent/arc4random.c:409-421 | in any state, the bytes drawn are those of RC4's loop over the table with its indices where they are |
| Rc4.FreshStream | libevent/libevent/arc4random.c:409-421 | before any key the bytes are those of RC4 on the unmixed table |
| Rc4.FreshBytes | libevent/libevent/arc4random.c:409-421 | the first two bytes of a fresh table are 2 and 5 |
| Rc4.KeyedStream | libevent/libevent/arc4random.c:107-122 | after a key has been mixed into a fresh table the bytes are those of RC4's loop over the table of the key schedule, with both indices at 255 |
| Rc4.KeyedRun | libevent/libevent/arc4random.c:96-421 | a run that starts anew, mixes a key in and draws n bytes ends, from any state, where RC4's loop over the table of the key schedule does from indices 255 |
| Rc4.WordIsDrawn | libevent/libevent/arc4random.c:423-434 | a word is four bytes drawn, the most significant first |
| Rc4.AlwaysRc4Iff | libevent/libevent/arc4random.c:107-122 | mixing leaves both indices at one place, and all bytes drawn there from any table are RC4's if and only if it is 0 |
| Rc4.FirstByteDiffers | libevent/libevent/arc4random.c:107-122 | with the key that mixes nothing the first byte is 0, where RC4's is 2 |
| ArcUniform.MinIsRemainder | libevent/libevent/arc4random.c:517-523 | the 32-bit formula is 2^32 mod n for every n from 2 on, also where doubling wraps to 0 |
| ArcUniform.MoreThanHalf | libevent/libevent/arc4random.c:526-536 | more than half of all words are accepted |
| ArcUniform.EachAsOften | libevent/libevent/arc4random.c:532-538 | in every stretch of whole multiples each remainder occurs as often |
| ArcUniform.ExactlyUniform | libevent/libevent/arc4random.c:506-539 | each remainder below n has exactly (2^32 - min) / n accepted words |
| ArcUniform.Uniform | libevent/libevent/arc4random.c:506-539 | the first word not below the remainder is reduced; bounds below 2 give 0 |

## Left out

- RateLimiter.Limiter: setting and reading the limit are plain accesses to the field and not methods of their own.
- Sockets, event dispatch, files, configuration, logging and clocks: their answers are parameters. The clock is read as often as the code reads it.
- Codeset conversion and zlib: taken as the identity. The type code in front of a message is outside the messages modelled here.
- UploadModel.CheckUploads: the branch that turns a banned user's queued upload into an error is not modelled; no queued upload belongs to a banned user.
- The answer of a request for a peer's connection comes as a separate, later event; starting an upload ends with that request.
- Upload objects whose last reference goes while a handler still runs: the model keeps them. An event of a socket that its upload no longer holds does nothing, or, in the classes, does not come.
- Uploads.UploadManager.OnPeerSocketReady: goes through the list as it was at the start; the source's iterator is invalid once a handler has taken an upload off the list.
- Upload rates, timeouts' statistics, file handles and the folder form of a request; why a file cannot be uploaded.
- The share database's order of files is that of its paths; loading it, transcoding it and listing one folder's contents (a filter by prefix) are not modelled.
- ShareStore.UnpackEntry: reading past the end of a queue is undefined in C++, and a failure here.
- ShareTree.UnpackOff: shifting an int by 32 or more, or into its sign, is undefined in C++; the model takes the count modulo 32 and the result as a signed word, as the usual machines do.
- ShareStore.PackEntry: trees are values and not linked objects, so replacing and deleting children is not modelled.
- ShareLists.FolderList.Fold: the folded root is the list of its folders; a map is a list of entries in the order of their keys.
- Frames.MessageProcessor.OnDataReceived: message handlers leave the buffer alone and do not hand the socket on. A loop that would never end is reported by an out-parameter.
- NetBuffer.Buffer.Append: for sizes that fit an int, as its own arithmetic assumes. Memory never runs out.
- Signed integers and addresses in messages, and raw byte vectors.
- Md5.Context.SetWords: the words of a block are stored before the first step instead of between the steps of the first round; the variant that reads the block in place on i386 is the same words. The sixteen groups of four steps are one method called sixteen times.
- Sha256.Context.EightRounds: the eight unrolled copies are one method called eight times, with the constants in a table.
- Sha256.Context.Update: takes less than 2^31 bytes a call, which is what the only caller's int can hold.
- Sha1.Context.HashBlock: the registers, wider than 32 bits in the source but masked after every operation, are 32-bit words.
- Clearing of secrets in memory and hexadecimal digests.
- AES contexts: E and D are one region of 120 words, as the struct lays them out, because the last pass for 32-byte keys writes four words past E.
- Timeouts, low watermarks, user and event callbacks, reference counts, locks and unlinking of a bufferevent pair.
- ArcUniform.Uniform: works on a given sequence of drawn words, since the loop ends only with probability one.
- Arc4: seeding, the count until the next stirring, and locking.
- Downloads, server and search-network messages, the interface protocol, the graphical client and the port mapper: forwarding and system calls, or repetitions of what is here.
