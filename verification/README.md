# Verification of a GB/T 28181 device's media path and control cores

A Dafny model of the media path of the device (raw H.264/H.265 cut into PES packets,
multiplexed into program-stream packs, fragmented into RTP payloads and numbered) and of
three control cores (MANSRTSP text, multi-message query replies, media sessions), with
proofs of what each stage keeps and of what the stages do together.

Each stage has a specification in pure functions, a class with the source's fields,
buffers and loops whose methods are proved to compute that specification, and lemmas
about the specification over every run.

Where a property holds only under a condition, the condition is proved exact for: writing
through a null packet or payload (`SafeRuns`), lost bytes (`FrameConserves`,
`PushedConserves`), first and last marks (`RunBrackets`, `PushedBrackets`, `RunFlags`),
start codes near each other and room for every unit (`FoundExactly` of a run,
`StreamExactly` of a stream, `ApartExactly` for NAL units), chunks shorter than the cache
(`LengthsExactly`), key marks (`KeysExactly`), one handler a key (`OneWaits`), the drain race (`LeftBehind`,
`StaysQueued`), the network (`ConnectedIs`, `OnlineSends`), the time through the clock (`RoundTrip`), the
rate field (`RateCovers`), time stamps (`StampMoves`, `StampsTelescope`,
`PacketsTelescope`, `StampsFollow`) and text that reads back (`ReadsBack`).

| files | what they model |
|---|---|
| `AccessUnits`, `StreamParts`, `Boundaries`, `UnitBytes` | what the access units and NAL units of a stream are |
| `Packetizing`, `PacketizingProofs`, `PacketizingRuns`, `PacketBrackets`, `PacketSizes`, `PacketRoom`, `ChunkIndependence`, `ApartNeeded`, `RoomNeeded`, `ChunkLengths`, `KeyMarks`, `KeyRuns`, `KeysNeeded`, `KeyPackets`, `KeyPictures`, `ChunkWitnesses`, `PacketizerClass` | the AVC and HEVC packetizers, one algorithm with the way of splitting as a parameter |
| `FragmentationUnits`, `FragmentationProofs`, `FragmentBytes`, `FragmentationRuns`, `FragmentFlags`, `NalIndependence`, `NalsApart`, `NalLengths`, `RtpPayloadAvcClass` | FU-A fragmentation of H.264 |
| `Bits`, `BitStreams`, `BitStreamClass`, `Headers`, `ProgramStream`, `Packs` | the bit writer and the PES, system, pack and map headers |
| `Timestamps` | one frame's time through PTS, SCR and the decode |
| `Muxing`, `MuxingProofs`, `MuxTables`, `MuxDraining`, `PsMuxClass` | the multiplexer thread as a state machine over its atomic steps |
| `Demultiplexing`, `Fragmenting`, `EndToEnd` | what is sent, its fragmentation, and the path from end to end |
| `Numbering`, `Wire` | RTP sequence numbers and time stamps, and the path on to the network |
| `MansRtsp`, `MansRtspProofs`, `MansRtspReading`, `MansRtspMessage` | the MANSRTSP parser and printer |
| `QueryChain`, `QueryChainProofs`, `MansCdpAgent` | replies of several messages, one per 200 |
| `Sessions`, `SessionAgentClass` | INVITE, ACK and BYE on one channel |

Bytes are integers from 0 to 255. Machine widths are written out where they matter: the
16-bit length field, 16- and 32-bit RTP numbers, the 32-bit rate sum, 64-bit times and
the signed int shift in the clock decode. Threads are interleaved at the granularity of
the mutexes. Clocks, the device's answers, the network and the SIP layer are inputs.

Where the code and its comments part, the model follows the code: RtpPayloadPS is said to
get whole packs (RTP/Payload/RtpPayloadPS.cpp:24-27) but is called once for the header and
once for each packet (PS/PSMux.cpp:37-46); the map's inner length adds five for each
stream of four bytes (PS/Semantics.cpp:814-816); and a map counts nothing in the rate,
because getBitStreamLength is not virtual.

## Model

| member | source | states |
|---|---|---|
| `PacketizingProofs.FrameConserves` | PS/Packetizer/PacketizedAVC.cpp:52-183 | One packetizeFrame call that does not write through the null packet, whatever the state and the chunk, keeps every byte in order (packets pushed, then the pending packet, then the cache) if and only if the pending packet has room when the window finds a start code; otherwise bytes are lost for good. |
| `PacketizingRuns.SafeRuns` | PS/Packetizer/PacketizedAVC.cpp:60-112 | Over every run, whatever the chunks: no call writes through the null packet if and only if the whole stream fits the cache, or the first bytes given are more than it holds, or the stream begins with a start code that cuts (the window then makes the first packet). |
| `PacketizingRuns.PushedConserves` | PS/Packetizer/PacketizedAVC.cpp:192-226 | Over every such run and `finished`, the data of the packets pushed is the input, byte for byte, if and only if no window hit and no final flush lacked room and the input was more than the cache holds (or nothing). |
| `PacketBrackets.RunBrackets` | PS/Packetizer/PacketizedAVC.cpp:52-183 | Over every run that does not write through the null packet, whatever is lost: a packet pushed is `bFirst` exactly when the one before it was `bFinished`, and so is the pending one, if and only if no call spills, that is, none overflows a packet pending since `bFinished` was set with no packet to push. |
| `PacketBrackets.PushedBrackets` | PS/Packetizer/PacketizedAVC.cpp:213-226 | The same of everything pushed once the stream is finished. |
| `PacketizingRuns.PushedEnds` | PS/Packetizer/PacketizedAVC.cpp:213-226 | After `finished` the last packet pushed closes its access unit; nothing is pushed of a stream the cache holds. |
| `ChunkIndependence.PushedUnits` | PS/Packetizer/PacketizedAVC.cpp:52-211 | When every window finds room, chunks are long enough and cuts apart: the access units pushed, first packet to finished packet joined, are those of a splitter that reads the whole stream once and knows no chunks, caches or packet sizes. |
| `ChunkIndependence.ChunkIndependent` | PS/Packetizer/PacketizedAVC.cpp:68-182 | Under the same conditions two chunkings of one stream push the same access units. |
| `ChunkIndependence.StreamUnits` | PS/Packetizer/PacketizedHEVC.cpp:57-219 | The same for AVC and HEVC with conditions on the input alone: a first chunk over the cache size, no chunk under it, no start code that cuts within a window of the one before it, and no place where a window or the final flush lacks room (`Roomy`). |
| `ChunkIndependence.WithinRoomy` | PS/Packetizer/PacketizedAVC.cpp:77-106 | Nothing lacks room in a stream whose start codes are apart and whose units are no longer than a packet. |
| `PacketRoom.FrameFull` | PS/Packetizer/PacketizedAVC.cpp:145-158 | A call that loses nothing keeps the pending packet as full as the length of its unit says: whole packets of 65000 bytes first, then the rest, whatever was cached, searched or scanned. |
| `RoomNeeded.StreamExactly` | PS/Packetizer/PacketizedAVC.cpp:77-106 | The exact conditions on the stream alone: where start codes do not overlap headers, every chunking long enough finds the access units if and only if no start code that cuts follows another within a window, and no window and no final flush lacks room in the packet its unit fills in pieces of 65000 bytes; otherwise a chunking that fails is built. |
| `ApartNeeded.FoundExactly` | PS/Packetizer/PacketizedAVC.cpp:52-226 | With chunks long enough and start codes apart, a run finds exactly the units of its stream if and only if every window and the final flush found room in the pending packet. |
| `ChunkLengths.LengthsExactly` | PS/Packetizer/PacketizedAVC.cpp:60-143 | For such streams: every chunking with a first chunk over the cache size, whatever the lengths of the others, finds the access units if and only if every start code that cuts is one the first chunk shows (at the first two bytes, or straight behind a first one that cuts) and nothing lacks room. |
| `ChunkWitnesses.LongUnitLosesByte` | PS/Packetizer/PacketizedAVC.cpp:92-102 | Why units have to fit a packet: long chunks, one start code, a unit of 65001 bytes, and a byte that is lost. |
| `ChunkWitnesses.LateStartSlips` | PS/Packetizer/PacketizedAVC.cpp:94-100 | Why the window should not make the first packet: `bFinished` is set for a push that does nothing and stays set, so the first 65000 bytes of a unit are pushed as a finished one. |
| `ChunkWitnesses.ShortChunkMissesUnit` | PS/Packetizer/PacketizedAVC.cpp:60-85 | Why chunks may not be shorter than the cache: an input whose second access unit is never cut off. |
| `ChunkWitnesses.CloseCodesMissUnit` | PS/Packetizer/PacketizedAVC.cpp:77-106 | Why start codes must be apart: an input with two of them in one window, where a unit is missed. |
| `AccessUnits.UnitsConserve` | PS/Packetizer/PacketizedAVC.cpp:127-143 | The reference splitter loses, adds and moves no byte. |
| `UnitBytes.UnitsEnd` | PS/Packetizer/PacketizedAVC.cpp:127-143 | Where the reference splitter ends a unit, told from the bytes: at every start code 0, 0, 0, 1 with its header inside the stream whose own NAL type is 1 or whose predecessor's is; NAL units end at every start code. |
| `KeyRuns.KeysMarked` | PS/Packetizer/PacketizedAVC.cpp:30-42 | When the units are found whatever the chunks are and no start code hides the last one of its unit (`KeysApart`), every packet that finishes a unit is marked as a key frame exactly when the NAL type behind the unit's last start code is 5 to 8 (H.265: 19 or 32 to 34). |
| `KeyPackets.WholeUnitMarks` | PS/Packetizer/PacketizedAVC.cpp:23-50 | The same told from a packet's own data, for every packet that is both first and finished, when start codes do not overlap headers. |
| `KeysNeeded.KeysExactly` | PS/Packetizer/PacketizedAVC.cpp:77-118 | That condition is exact: where start codes do not overlap headers, every chunking long enough finds the units and marks them as the stream says if and only if cuts are apart, nothing lacks room, and no start code is followed within a window by its unit's last one with only one of the two a key frame's; otherwise a chunking that fails is built. |
| `KeyPackets.HiddenKeyFrame` | PS/Packetizer/PacketizedAVC.cpp:77-118 | Why that is needed: a stream of twenty bytes whose units are found, but whose key frame, six bytes behind a delimiter, is not marked. |
| `KeyPackets.CapMarks` | PS/Packetizer/PacketizedAVC.cpp:120-158 | Which header decides for a packet cut by the cap: the last start code the call passed before its scan stopped, even one behind the packet, and if it passed none the one remembered. |
| `KeyPictures.AllKeysMarked` | PS/Packetizer/PacketizedAVC.cpp:30-42 | Where each unit has only key frame headers or none, every packet of it is marked so, cut by the cap or not, whatever the chunks are. |
| `PacketSizes.PushedSized` | PS/Semantics.cpp:709-718 | Over every run that does not write through the null packet: no packet holds more than 65000 bytes, and only one that finishes a unit holds fewer. |
| `PacketizerClass.Packetizer.PushPacket` | PS/Packetizer/PacketizedAVC.cpp:23-50 | The pending packet goes to the multiplexer with its flags and the key mark of the header remembered (`KeysMarked` says which packets that marks); the flags and the packet are reset. |
| `PacketizerClass.Packetizer.WriteDataByte` | PS/Semantics.cpp:709-718 | As many bytes as the 65000-byte cap leaves room for are appended, and their number is returned. |
| `PacketizerClass.Packetizer.SearchWindow` | PS/Packetizer/PacketizedAVC.cpp:68-118 | The 8-byte (HEVC 10-byte) window search: what a hit does to packet, flags, header and cache, and that without a hit the cache goes to the pending packet and what does not fit to a new one. |
| `PacketizerClass.Packetizer.ScanForCut` | PS/Packetizer/PacketizedAVC.cpp:127-143 | The scan stops at the first start code that cuts, having remembered every header it passed. |
| `PacketizerClass.Packetizer.FillPackets` | PS/Packetizer/PacketizedAVC.cpp:145-158 | The copy loop over the 65000-byte cap spreads the bytes over packets as the specification does. |
| `PacketizerClass.Packetizer.PacketizeFrame` | PS/Packetizer/PacketizedAVC.cpp:52-183 | The buffers, scans and early returns compute exactly the `Frame` step the lemmas above are about. |
| `PacketizerClass.Packetizer.Packetize` | PS/Packetizer/PacketizedAVC.cpp:192-211 | The loop takes the whole chunk and computes the `Packetized` step. |
| `PacketizerClass.Packetizer.Finish` | PS/Packetizer/PacketizedAVC.cpp:213-226 | The cache goes into the pending packet, which is pushed as finished. |
| `FragmentationProofs.HeaderBits` | RTP/Payload/RtpPayloadAvc.cpp:21-40 | A receiver reads from the two FU-A bytes the start flag, the end flag and the whole NAL header. |
| `FragmentationRuns.SafeRuns` | RTP/Payload/RtpPayloadAvc.cpp:72-138 | Over every run, whatever the chunks: no call writes through the null payload if and only if the whole stream fits the cache, or the first bytes given are more than it holds, or the stream begins with a start code. |
| `FragmentationRuns.Reassembles` | RTP/Payload/RtpPayloadAvc.cpp:65-209 | Over every run that does not write through the null payload, whatever the flags say: rebuilding from the fragments, the pending one and the cache gives back every byte of the stream, behind the unset NAL header when the stream does not begin with a start code (section 5.8 of RFC 6184). |
| `FragmentFlags.RunFlags` | RTP/Payload/RtpPayloadAvc.cpp:42-209 | Over every such run: fragments bracket NAL units by their start and end flags, none exceeds the limit, only one with the end flag is shorter, and the pending one begins a NAL unit exactly after an end, if and only if no call overflows a payload pending since the marker was set with no payload to push. |
| `FragmentFlags.LateStartMarks` | RTP/Payload/RtpPayloadAvc.cpp:110-116 | Why the window should not make the first payload: the marker is set for a push that does nothing and stays set, so the first fragment says that it ends a NAL unit that goes on. |
| `NalIndependence.CarriesNals` | RTP/Payload/RtpPayloadAvc.cpp:79-208 | With start codes 8 bytes apart (5 behind the first) the units rebuilt are exactly the NAL units of the whole stream. |
| `NalIndependence.NalsIndependent` | RTP/Payload/RtpPayloadAvc.cpp:79-160 | Two chunkings of one such stream carry the same NAL units. |
| `NalsApart.ApartExactly` | RTP/Payload/RtpPayloadAvc.cpp:79-127 | For every stream that begins with a start code that distance is the exact condition: every chunking long enough carries the NAL units if and only if it holds. |
| `NalLengths.LengthsExactly` | RTP/Payload/RtpPayloadAvc.cpp:72-160 | For every stream that begins with a start code: every chunking with a first chunk over the cache size, whatever the lengths of the others, carries the NAL units if and only if start codes begin at the first or the sixth byte only. |
| `NalsApart.ShortChunkMissesNal` | RTP/Payload/RtpPayloadAvc.cpp:72-147 | Why chunks may not be shorter than the cache: an input whose second NAL unit is carried as part of the first. |
| `RtpPayloadAvcClass.RtpPayloadAvc.PushFormated` | RTP/Payload/RtpPayloadAvc.cpp:42-56 | The pending fragment gets its two header bytes, is sent, and the flags are reset. |
| `RtpPayloadAvcClass.RtpPayloadAvc.SearchWindow` | RTP/Payload/RtpPayloadAvc.cpp:79-127 | The window search and the byte loops that fill fragments from it. |
| `RtpPayloadAvcClass.RtpPayloadAvc.CopyBytes` | RTP/Payload/RtpPayloadAvc.cpp:162-183 | The copy loop fills and sends fragments exactly as bytes appended one by one would. |
| `RtpPayloadAvcClass.RtpPayloadAvc.FormatChunk` | RTP/Payload/RtpPayloadAvc.cpp:65-209 | The buffers and loops compute exactly the `Format` step the lemmas are about. |
| `RtpPayloadAvcClass.RtpPayloadAvc.TransportChunk` | RTP/RtpParticipant.cpp:107-127 | transport calls format until the chunk is taken. |
| `BitStreams.Put8Appends` | PS/Semantics.cpp:100-129 | write8's masks, shifts, or-assignment and second byte append exactly the n chosen bits, at every offset, and leave every bit beyond the new offset zero. |
| `BitStreamClass.SplitField` | PS/Semantics.cpp:63-71 | A field split at a word boundary into the part above and the part below is the field, either part possibly empty. |
| `BitStreamClass.BitStream.UpdateLengthField` | PS/Semantics.cpp:27-53 | Once a byte follows the field and fewer than 65536 do, the field holds their count, whatever was first written there; the exact state from which it is kept up to date (a count of zero or of a multiple of 65536 does not begin it) is stated. |
| `BitStreamClass.StoreWord` | PS/Semantics.cpp:48-52 | Storing the two bytes changes those sixteen bits and nothing else. |
| `BitStreamClass.BitStream.Write8` | PS/Semantics.cpp:100-136 | With valid arguments appends the n bits of value / 2^s, most significant first; with others changes nothing. |
| `BitStreamClass.BitStream.Write16be` | PS/Semantics.cpp:55-72 | The same through two write8 calls on a value given as it lies in memory. |
| `BitStreamClass.BitStream.Write32be` | PS/Semantics.cpp:74-91 | The same through two write16be calls. |
| `BitStreamClass.BitStream.Write16` | PS/Semantics.cpp:138-157 | The same for a 16-bit number. |
| `BitStreamClass.BitStream.Write32` | PS/Semantics.cpp:159-178 | The same for a 32-bit number. |
| `BitStreamClass.BitStream.Write64` | PS/Semantics.cpp:180-203 | The same for a 64-bit number, for every n and s with s + n <= 64. |
| `BitStreamClass.CopyAligned` | PS/Semantics.cpp:220-225 | Copying whole bytes at a byte boundary appends their bits. |
| `BitStreamClass.BitStream.WriteBytes` | PS/Semantics.cpp:205-232 | Appends the bytes and keeps the length field right. |
| `BitStreamClass.BitStream.WriteBitStream` | PS/Semantics.cpp:234-260 | Appends the bytes of the other stream. |
| `Headers.PesReads` | PS/Semantics.cpp:526-696 | A reader following section 2.4.3.6 of ISO/IEC 13818-1, which refuses a packet with other flags or without the marker bits, recovers from any serialised PES packet, with anything after it, its stream id, all 33 bits of its PTS and exactly its data; PES_packet_length never wraps. |
| `ProgramStream.PesToBitStream` | PS/Semantics.cpp:520-697 | The sequence of field writes produces exactly the bytes `PesReads` is about, length field patched. |
| `ProgramStream.FinishElement` | PS/Semantics.cpp:27-53 | For every element with its length field at byte four, whatever was first written there, the finished bytes hold the count of what follows. |
| `Headers.SystemHeaderReads` | PS/Semantics.cpp:285-321 | A reader following section 2.5.3.5, which refuses other bounds and flags than the source's, recovers the stream list from any system header without the id of the longer entry. |
| `ProgramStream.SystemHeader.AddVideoStreamType` | PS/Semantics.cpp:333-349 | A stream id is listed once, as it was first added. |
| `ProgramStream.SystemHeader.AddAudioStreamType` | PS/Semantics.cpp:351-367 | The same for audio, with its own bounds. |
| `ProgramStream.SystemHeader.ToBitStream` | PS/Semantics.cpp:279-321 | The writes produce exactly the bytes `SystemHeaderReads` is about, though header_length is first written unset. |
| `ProgramStream.TableSize` | PS/Semantics.cpp:333-367 | Listing ids once keeps the table small enough for the length field in every run. |
| `Headers.PackHeaderReads` | PS/Semantics.cpp:391-422 | A reader following section 2.5.3.3, which insists on the prefix and the marker bits, recovers clock, extension and rate from any pack header. |
| `Headers.RateCovers` | PS/Semantics.cpp:412 | For every 32-bit sum: the rate written, in units of 50 bytes, covers the bytes counted and by less than one unit if and only if it fits the 22 bits of the field. |
| `Packs.PutPackHeader` | PS/Semantics.cpp:398-418 | The sequence of field writes produces exactly the 14 bytes `PackHeaderReads` is about. |
| `Headers.PsmReads` | PS/Semantics.cpp:748-790 | The outer length of any program stream map leads exactly to its end, and a reader that goes by it recovers every stream with its type; the inner length says five bytes for each. |
| `Packs.ProgramStreamMap.AddElementaryStream` | PS/Semantics.cpp:798-817 | A stream type is listed once; the inner length adds five for each. |
| `Packs.ProgramStreamMap.ToBitStream` | PS/Semantics.cpp:742-791 | The writes produce the map's bytes, outer length patched. |
| `PsMuxClass.PackBuffer.SetScr` | PS/Semantics.cpp:439-443 | The 64-bit product, division and remainders give the clock fields of a time in milliseconds. |
| `PsMuxClass.PackBuffer.Clear` | PS/Semantics.cpp:445-451 | Everything but the clock is reset. |
| `PsMuxClass.PackBuffer.ToBitStream` | PS/Semantics.cpp:825-840 | Serialises every packet, sums the rate (a map counts nothing), then writes pack header and system header: header bytes and packet bytes are those of the pack's abstract value, which `Demultiplexing.HeaderReads` and `DemuxSent` read back. |
| `Timestamps.ScrOfPts` | PS/Semantics.cpp:439-443 | PTS to milliseconds to SCR loses what is below a millisecond and has extension 0. |
| `Timestamps.HeaderDecodes` | RTP/Payload/RtpPayloadPS.cpp:41-56 | The bit fiddling on bytes 4 to 8 recovers the three parts of the clock, the highest widened from a signed int. |
| `Timestamps.RoundTrip` | PS/Semantics.cpp:720-723 | A frame time t, for all t whose 64-bit product does not overflow, comes out of PTS, getPresentation, setSCR and the decode as t if and only if 90 t < 2^31. |
| `Timestamps.TimeSurvives` | RTP/Payload/RtpPayloadPS.cpp:36-57 | The same through the pack header's bytes with anything behind them. |
| `MuxingProofs.RunConserves` | PS/PSMux.cpp:50-127 | In every interleaving of pushes, turns, sends and flag stores: video pushed is video sent, then in the current pack, then queued, in order; likewise audio. |
| `MuxingProofs.RunShapes` | PS/PSMux.cpp:66-107 | In every interleaving, given packets in whole access units: every pack sent holds one complete unit or no video, in the order map (key frames only), video, audio, under the clock of its unit and with a system header exactly for key frames. |
| `MuxingProofs.RunCovers` | PS/PSMux.cpp:72-102 | In every interleaving the system header and the map sent with a pack list every stream and type in it. |
| `MuxTables.RunTrue` | PS/PSMux.cpp:77-102 | In every interleaving the tables of every pack hold nothing else: the system header only stream 0xE0 with bound 100 and stream 0xC0 with bound 1000 in the larger unit, the map a type for stream 0xE0 only if video was pushed with it and for 0xC0 only if audio was. |
| `MuxTables.TypesListed` | PS/PSMux.cpp:77-102 | So where video and audio share no type, the map of a pack lists the type of each packet in it under the stream that carries it. |
| `MuxTables.TablesGrow` | PS/Semantics.cpp:333-367 | A step of the multiplexer keeps what the tables list, in order, and adds at their end. |
| `MuxTables.RunClocked` | PS/PSMux.cpp:79-86 | In every interleaving the clock of a pack is that of the last access unit begun when it was sent, also when it holds no video; before the first unit it is zero. |
| `MuxTables.SendTakesAudio` | PS/PSMux.cpp:90-107 | A pack takes all the audio queued at that moment, in order, and when the unit is not finished none is taken and none sent. |
| `MuxDraining.FinishDrains` | PS/PSMux.cpp:129-138 | Once both flags are stored, with the last packet finished: the thread exits, every video packet ever pushed is sent in order, one unit a pack, and the audio is sent or still queued. |
| `MuxDraining.LeftBehind` | PS/PSMux.cpp:64 | Draining is not certain: the thread stops with video in its queue if and only if the loop is tested between the two flag stores while video is queued. |
| `MuxDraining.StaysQueued` | PS/PSMux.cpp:64-120 | Once the thread has stopped, the video queue is not empty if and only if video was caught in that way or pushed afterwards. |
| `MuxDraining.FinishRace` | PS/PSMux.cpp:132-133 | A run of three steps in which the race loses a packet. |
| `PsMuxClass.PsMux.PushVideoPES` | PS/PSMux.cpp:115-120 | The packet joins the end of the video queue and nothing else changes. |
| `PsMuxClass.PsMux.PushAudioPES` | PS/PSMux.cpp:122-127 | The packet joins the end of the audio queue and nothing else changes. |
| `PsMuxClass.PsMux.StopRunning` | PS/PSMux.cpp:132 | The first of the two stores, a step of its own. |
| `PsMuxClass.PsMux.SetFinishFlag` | PS/PSMux.cpp:133 | The second store, a step of its own. |
| `PsMuxClass.PsMux.TakeVideo` | PS/PSMux.cpp:72-86 | A packet taken under the video lock joins the pack and sets clock, map and header as the state machine says. |
| `PsMuxClass.PsMux.Turn` | PS/PSMux.cpp:64-88 | The loop test and the part under the video lock. |
| `PsMuxClass.PsMux.TakeAllAudio` | PS/PSMux.cpp:93-102 | The loop under the audio lock empties the queue into the pack. |
| `PsMuxClass.PsMux.SendPack` | PS/PSMux.cpp:33-48 | The callback gets the header and then each packet, in order, and the tables are those of this moment. |
| `PsMuxClass.PsMux.FinishTurn` | PS/PSMux.cpp:90-108 | The rest of a turn, clearing included. |
| `PsMuxClass.PsMux.Multiplexed` | PS/PSMux.cpp:64-112 | With no more pushes the loop ends in the drained state `FinishDrains` is about. |
| `Fragmenting.FragmentsAre` | RTP/Payload/RtpPayloadPS.cpp:59-80 | One call's payloads are its bytes end to end, all of the limit's size but the last, and only the first carries the first mark. |
| `Fragmenting.CallsJoin` | RTP/Payload/RtpPayloadPS.cpp:28-81 | Over any number of calls the payloads are the calls' bytes end to end. |
| `Fragmenting.RtpPayloadPS.PushFormated` | RTP/Payload/RtpPayloadPS.cpp:16-22 | The pending payload is sent with its marks, which are then reset. |
| `Fragmenting.RtpPayloadPS.Cut` | RTP/Payload/RtpPayloadPS.cpp:59-75 | The loop pushes each full payload as it fills and keeps at most a short last one. |
| `Fragmenting.RtpPayloadPS.Format` | RTP/Payload/RtpPayloadPS.cpp:28-81 | The call pushes exactly the specified payloads, leaves none pending and reports every byte taken. |
| `Demultiplexing.HeaderReads` | PS/Semantics.cpp:391-422 | The first callback of every pack gives the clock, the rate and, from byte 14 to its end, the stream table exactly when the pack has one. |
| `Demultiplexing.DemuxSent` | PS/PSMux.cpp:33-48 | Reading the callbacks' bytes by start codes and length fields gives pack by pack exactly what was put in: clock, stream table or none, maps and PES packets in their order with ids, times and data, and a rate that counts 14 bytes and the data of each PES packet, 12 and 3 an entry of the system header, and no map. |
| `Demultiplexing.RunOk` | PS/PSMux.cpp:50-113 | Over every run what is sent stays within the field widths the readers need. |
| `EndToEnd.PayloadsDeliver` | RTP/Payload/RtpPayloadPS.cpp:59-81 | In every interleaving: joining the RTP payloads of all packs sent and demultiplexing them yields every pack as it was made up, in push order: its clock, its stream table exactly if it has one, its maps, all data and times, and the rate. |
| `EndToEnd.PackStarts` | RTP/Payload/RtpPayloadPS.cpp:36-58 | Each pack sent gives exactly one payload marked first, with the time of its clock as decoded. |
| `EndToEnd.StreamDelivers` | PS/PSMux.cpp:64-113 | The whole path: from chunks of H.264 or H.265 through packetizer, multiplexer (any interleaving, with audio), finish, fragmentation and demultiplexing come exactly the access units of the stream, one a pack, in order. |
| `EndToEnd.KeysDeliver` | PS/PSMux.cpp:79-86 | The whole path with key frames: where each access unit has only key frame headers or none, the k-th pack with a picture holds the k-th access unit, with a stream table and the map before it if and only if the unit is a key frame. |
| `Wire.OnlineSends` | RTP/RtpParticipant.cpp:60-97 | Every payload dequeued arrives, in order, if and only if each is dequeued while connected and its `send` succeeds; otherwise fewer arrive than were dequeued. |
| `Wire.Delivers` | RTP/RtpParticipant.cpp:60-97 | In every interleaving and every online run (connected and every `send` successful whenever a payload is dequeued): the RTP packets that arrive carry consecutive numbers modulo 2^16, and joined and demultiplexed they are exactly the packs sent, as in `PayloadsDeliver`. |
| `Wire.StreamDelivers` | RTP/RtpParticipant.cpp:60-127 | The whole path on to the network, online: the consecutively numbered packets that arrive, joined and demultiplexed, are the access units of the stream. |
| `Wire.NalsDeliver` | RTP/Payload/RtpPayloadAvc.cpp:42-209 | The H.264 path on to the network: from long chunks of a stream with its start codes apart, the fragments arrive online under consecutive numbers, with the RTP marker exactly on a NAL unit's last fragment, and rebuild its NAL units in order, all but the last, which waits for the next start code, and the beginning of that. |
| `Wire.StampsFollow` | RTP/RtpParticipant.cpp:73-91 | RTP time stamps follow the pack clocks: online, the times of the frames sent are those in the packs' clocks, and from any moment on every packet is stamped by 90 times the milliseconds since then, modulo 2^32, if and only if each of these times passes the test of `StampMoves` against the one before it. |
| `Numbering.RunNumbers` | RTP/RtpParticipant.cpp:60-97 | Whatever the network does, payloads leave the queue in the order pushed and the k-th carries number seq0 + k modulo 2^16 and its own marker if sent, and uses the number up if not (section 5.1 of RFC 3550). |
| `Numbering.ConnectedIs` | RTP/RtpParticipant.cpp:75-92 | Over every run, told from the steps and the packets: there is a connection if and only if it was made in some step and since then nothing disconnected and the network took every packet. |
| `Numbering.HandedOver` | RTP/RtpParticipant.cpp:75-92 | A payload dequeued goes to the network exactly then; so none does between a failed `send` and the next connection. |
| `Numbering.FailureReconnects` | RTP/RtpParticipant.cpp:86-92 | Between a packet the network did not take and the next one there is a step that connects, when exactly those before were handed over. |
| `Numbering.StampMoves` | RTP/RtpParticipant.cpp:75-80 | A frame's time stamp moves by 90 times its milliseconds if and only if the 32-bit gap is at most a second, or half the 32-bit range. |
| `Numbering.StampsTelescope` | RTP/RtpParticipant.cpp:73-85 | From any state, through connections and losses: after every step the time stamp has moved by 90 times what the frame time has, modulo 2^32, if and only if each frame handed to the network passes the test of `StampMoves`. |
| `Numbering.PacketsTelescope` | RTP/RtpParticipant.cpp:73-91 | Every packet handed to the network since then is so stamped, non-first ones too, if and only if the same holds. |
| `Numbering.StampStays` | RTP/RtpParticipant.cpp:75-80 | Between frames the time stamp does not move, connected or not. |
| `Numbering.RtpParticipant.ThreadTurn` | RTP/RtpParticipant.cpp:62-96 | One turn of the sender thread is the step the lemmas are about; a packet whose `send` fails is marked as not sent and ends the connection. |
| `Numbering.RtpParticipant.PushPayload` | RTP/RtpParticipant.cpp:100-105 | The payload joins the end of the queue and nothing else changes. |
| `Numbering.RtpParticipant.DoConnect` | RTP/RtpParticipant.cpp:129-144 | Connects only with a transport and a destination and when not connected, as the network answers. |
| `Numbering.RtpParticipant.DoDisconnect` | RTP/RtpParticipant.cpp:146-156 | Disconnects only when connected; both transports answer true. |
| `MansRtsp.ParseParam` | MANSRTSP/B.1Message.cpp:55-94 | A parameter parse advances by at least one on any text left and never past its end. |
| `MansRtsp.ParseHeader` | MANSRTSP/B.1Message.cpp:128-216 | A header parse advances by at least one on any text left and never past its end: the parser ends on every input. |
| `MansRtspProofs.StartReads` | MANSRTSP/B.1Message.cpp:9-53 | A printed start line is passed over as a whole, whatever its code; its version reads as the method. |
| `MansRtspProofs.SimpleReads` | MANSRTSP/B.1Message.cpp:140-168 | A header with a value and no parameters, or with one parameter and no value, reads back as itself and to its end. |
| `MansRtspProofs.TailedReads` | MANSRTSP/B.1Message.cpp:152-156 | A value with separated parameters reads back as itself but one character past its end. |
| `MansRtspProofs.OtherReads` | MANSRTSP/B.1Message.cpp:218-234 | Any other printed header reads back as a different one. |
| `MansRtspProofs.ReadsBack` | MANSRTSP/B.1Message.cpp:277-304 | Headers and body come back from their printed text if and only if every header is of the two simple forms, or only the last is not, has separated parameters, and no body follows. |
| `MansRtspProofs.RoundTrip` | MANSRTSP/B.1Message.cpp:306-323 | The same for whole messages with any start line. |
| `MansRtspProofs.ValueAndParamLost` | MANSRTSP/B.1Message.cpp:152-156 | A concrete message that does not come back. |
| `MansRtspReading.RequestLineReads` | MANSRTSP/B.1Message.cpp:9-42 | A request line, with a blank or a tab behind the method, reads as its method and its version and to its end. |
| `MansRtspReading.RequestReads` | MANSRTSP/B.1Message.cpp:277-304 | A whole request written out with \r\n, `name: value` or `name: parameter=value` lines, an empty line and a body reads as its method, version, headers and body; the body ends at the first NUL. |
| `MansRtspReading.ParametersRead` | MANSRTSP/B.1Message.cpp:140-179 | A value with two parameters is printed and read with a semicolon before each. |
| `MansRtspReading.StripMeans` | MANSRTSP/B.1Message.cpp:18-20 | Exactly blanks, tabs, line feeds, vertical tabs, form feeds and carriage returns are dropped, wherever they are. |
| `MansRtspReading.StatusReads` | MANSRTSP/B.1Message.cpp:44-53 | A reply says its version, its code in decimal and its reason, each behind a blank, then the line end, headers, an empty line and the body. |
| `MansRtspReading.DecimalReads` | MANSRTSP/B.1Message.cpp:46-50 | The digits printed for a code have its value and no idle zero. |
| `MansRtspMessage.ParameterObject.Parse` | MANSRTSP/B.1Message.cpp:55-94 | The character loops compute the specified parse. |
| `MansRtspMessage.ParameterObject.Encode` | MANSRTSP/B.1Message.cpp:96-102 | Appends the parameter's text. |
| `MansRtspMessage.HeaderObject.ParseParameters` | MANSRTSP/B.1Message.cpp:170-179 | The loop reads parameters to the end of the line. |
| `MansRtspMessage.HeaderObject.ParseHeaderValue` | MANSRTSP/B.1Message.cpp:140-168 | The three ways a value can end. |
| `MansRtspMessage.HeaderObject.Parse` | MANSRTSP/B.1Message.cpp:181-216 | Name and value loops compute the specified parse. |
| `MansRtspMessage.HeaderObject.Encode` | MANSRTSP/B.1Message.cpp:218-234 | Appends the header's text; the separator test reads the last characters of everything printed so far. |
| `MansRtspMessage.StartLineObject.Parse` | MANSRTSP/B.1Message.cpp:33-42 | Method and version loops compute the specified parse. |
| `MansRtspMessage.StartLineObject.Encode` | MANSRTSP/B.1Message.cpp:44-53 | Appends the reply's start line. |
| `MansRtspMessage.MessageObject.Parse` | MANSRTSP/B.1Message.cpp:277-304 | The message loop ends, computes the specified parse and reports the whole size consumed. |
| `MansRtspMessage.MessageObject.Encode` | MANSRTSP/B.1Message.cpp:306-323 | Appends the message's text. |
| `QueryChainProofs.OneWaits` | Agent/MANSCDPAgent.cpp:52-94 | Over every run and for every key (type and SN): never more than one handler waits for it if and only if no query for it is opened while one does. |
| `QueryChainProofs.RunGood` | Agent/MANSCDPAgent.cpp:52-94 | Under that condition, with keys used again or not and in every order of results: since a key's last query was opened a prefix of its chain is sent, in order and once each, and at most one handler waits, for the last message sent; an SN that is no number stops at one message. |
| `QueryChainProofs.Pace` | MANSCDP/A.2.6Response.cpp:190-201 | Since a query was opened, message k + 1 is sent only after k 200s; when no message is refused and every result is 200, messages and 200s keep pace, so all are delivered and then no handler waits. |
| `QueryChainProofs.ItemsDelivered` | MANSCDP/A.2.4Query.cpp:215-247 | The items delivered since a catalog query was opened are always a prefix of the items queried, and all of them once every message is sent. |
| `QueryChainProofs.CatalogIs` | MANSCDP/A.2.4Query.cpp:223-246 | The catalog chain carries exactly the items, at most two a message, all full but the last, each with the total. |
| `QueryChainProofs.RecordsFollow` | MANSCDP/A.2.4Query.cpp:455-458 | Whatever the device answers, the k-th message of a record chain carries its k-th answer. |
| `QueryChainProofs.RecordsEnd` | MANSCDP/A.2.4Query.cpp:455-464 | A record chain ends at the first empty answer or as soon as the promised total is reached, not before. |
| `QueryChainProofs.RecordsInPairs` | MANSCDP/A.2.4Query.cpp:452-472 | A device that answers in pairs gets the chain a catalog query would. |
| `QueryChainProofs.NoRecords` | MANSCDP/A.2.4Query.cpp:452-472 | For a total of zero or less exactly one message is sent, which promises none and carries none, and its handler waits with nothing to follow. |
| `QueryChainProofs.SharedSn` | MANSCDP/A.2.6Response.cpp:177-188 | What happens otherwise: two queries under one key at once, where the second one's result sends the first one's next message. |
| `MansCdpAgent.BuildCatalog` | MANSCDP/A.2.4Query.cpp:220-246 | The loop builds the catalog chain. |
| `MansCdpAgent.BuildRecords` | MANSCDP/A.2.4Query.cpp:452-471 | The loop builds the record chain. |
| `MansCdpAgent.MansCdpAgent.SendCmd` | Agent/MANSCDPAgent.cpp:76-94 | A message taken by the SIP layer registers its handler; one not taken does not. |
| `MansCdpAgent.MansCdpAgent.HandleCatalog` | MANSCDP/A.2.4Query.cpp:190-248 | Builds the chain and sends its first message; nothing is sent for a request that cannot be read, an unknown device or no items. |
| `MansCdpAgent.MansCdpAgent.HandleRecordInfo` | MANSCDP/A.2.4Query.cpp:422-473 | The same for records, which also need a handle; a total of zero or less sends one message that promises none and carries none. |
| `MansCdpAgent.MansCdpAgent.Handle` | MANSCDP/A.2.6Response.cpp:559-570 | Only a 200 sends the next message. |
| `MansCdpAgent.MansCdpAgent.AgentResult` | Agent/MANSCDPAgent.cpp:52-74 | The walk finds the first match, lets it push its successor at the end of the list and erases the match, no other. |
| `Sessions.RunUnique` | Agent/SessionAgent.cpp:833-919 | Over every run of INVITE, ACK and BYE the session names are pairwise distinct, and so are the non-empty subjects. |
| `Sessions.AtMostThree` | Agent/SessionAgent.cpp:237-259 | So a channel never has more than three sessions. |
| `Sessions.StartedByAck` | Agent/SessionAgent.cpp:897-906 | A session is started if and only if an ACK that started the device came since it was set up. |
| `Sessions.SessionsAre` | Agent/SessionAgent.cpp:833-919 | Over every run a session is there if and only if the last INVITE for its identifier answered with 200 was followed by no BYE for it and no handled INVITE that named its sender; its kind and sender are those of that INVITE. Every other step leaves it alone. |
| `Sessions.TargetsUnique` | Agent/SessionAgent.cpp:987-998 | A file end reported by a session's name finds that session and no other, and at most one session takes MANSRTSP requests: the one set up under the name Playback. |
| `Sessions.SameSource` | Agent/SessionAgent.cpp:843-860 | Annex K of GB/T 28181: a media source already sent in a session of the kind asked for is released and set up anew with a 200, never refused. |
| `Sessions.OneAnswer` | Agent/SessionAgent.cpp:863-894 | Every INVITE handled with a live SIP agent attempts exactly one answer, in order and for its identifier: the one of 200, 486 and 488 that `AnswerMeans` says for the sessions there at the time. |
| `Sessions.AnswerMeans` | Agent/SessionAgent.cpp:863-894 | Exactly when the answer is 486 and exactly when it is 488, from the session name and the media offered. |
| `Sessions.ServedMeans` | Agent/SessionAgent.cpp:417-483 | A session gets media exactly when a video with program streams or with what the device encodes is offered, or an audio with what it encodes, and gets no payload type that was not offered. |
| `Sessions.ServedAre` | Agent/SessionAgent.cpp:417-483 | Offer by offer, in order: a video offer with program streams (96) is served with them even when what the device encodes is offered too, else with what the device encodes; an audio offer with what it encodes; no other. |
| `Sessions.SubjectReads` | Agent/SessionAgent.cpp:735-753 | The sender is what stands before the first comma of the Subject; without a comma there is none. |
| `Sessions.OtherLetters` | Agent/SessionAgent.cpp:975-985 | A name in other letters meets the refusal test but not the constructor: 488 on an empty channel, 486 on a busy one. |
| `SessionAgentClass.SessionAgent.IsSessionExist` | Agent/SessionAgent.cpp:975-985 | The walk over the map. |
| `SessionAgentClass.SessionAgent.Release` | Agent/SessionAgent.cpp:849-860 | Erasing the first session with the subject erases the only one. |
| `SessionAgentClass.SessionAgent.AddMedia` | Agent/SessionAgent.cpp:417-483 | The loop over the media offered chooses for each what the specification does, program streams first. |
| `SessionAgentClass.SessionAgent.DispatchInvite` | Agent/SessionAgent.cpp:833-895 | The handler is the step the lemmas are about. |
| `SessionAgentClass.SessionAgent.DispatchAck` | Agent/SessionAgent.cpp:897-906 | Starts the session the identifier names. |
| `SessionAgentClass.SessionAgent.DispatchBye` | Agent/SessionAgent.cpp:908-919 | Erases the session the identifier names. |
| `SessionAgentClass.SessionAgent.NotifyFileEnd` | Agent/SessionAgent.cpp:987-998 | The walk reports for the session of exactly that name. |
| `SessionAgentClass.SessionAgent.DispatchMansRtsp` | Agent/SessionAgent.cpp:1011-1024 | The walk finds the one session that takes the request, if there is one. |

## Left out

- Sockets, select, the connection thread, the SIP and XML libraries, the demo devices and logging: input and output around the model.
- The wall clock: times enter as numbers, and the packetizer model carries no PTS, and the multiplexer model takes each packet's PTS as given.
- Pointers to PES packets: they are held by value, so a packet changed after it was pushed is not captured (the source never does).
- The links of a reply chain: messages are held in a sequence in the order of their `m_next` pointers.
- The 32-bit signed overflow of `BitStream::offset` and of lengths over 2^31: offsets are unbounded.
- Bytes `write8` stores past the vector's end: room for its second byte is a precondition, and every serialiser is shown to meet it.
- Optional PES fields behind flags the constructor clears (DTS, ESCR, ES rate, trick mode, CRC, extension) and the map's CRC, always zero.
- A stream id 0xB7 in the system header and 0xFD in the map: their longer entries hold fields that nothing in the source sets, and the multiplexer adds neither.
- A reader that trusts the map's inner length, which counts five for every four bytes: the one modelled goes by the outer length.
- ProgramStreamMap descriptors: the source has no class that implements one.
- A PSMux without a callback: the source then drops every pack.
- A pack header of fewer than four bytes handed to RtpPayloadPS, where the source reads past the end.
- A packetizer used again after `finished`: no result covers it, because the next packet is then not marked first.
- `StartLine`, `Header` and `Parameter` objects parsed into twice: the source would append to what they hold; the model parses into fresh ones.
- PacketizerClass.Packetizer.PacketizeFrame: requires that the call does not write through the null packet; `PacketizingRuns.SafeRuns` says exactly when a run meets one.
- RtpPayloadAvcClass.RtpPayloadAvc.FormatChunk: requires the same of the null payload (`FragmentationRuns.SafeRuns`), and limits under 5 bytes are left out (the transports set 1460 and 65523), because the window writes up to three bytes after a start code without looking at the limit, and the copy loop would then count below zero.
- Timestamps.HeaderDecodes: the shift of three bits into an int's sign bit is taken as two's complement, as the usual compilers do.
- Numbers read from MANSRTSP values, the command matching and the PTZ commands: short branch code.
- The stream number and the speed in an INVITE's media, the ports and addresses of the answer's SDP: values handed on.
- A transport whose socket has descriptor 0, which `disconnect` leaves open.
- The order of the session map: the walks are shown to have at most one candidate, so it does not matter.
- Handlers of other messages (keepalive, media status) in the handler list: they have other keys and send nothing.
- UA registration, keepalive and the XML field encoders: little to prove.
- MansRtspProofs.ReadsBack: header names are non-empty and names and values hold no white space and none of the separators, because the parser strips white space and splits at the first separator.
- EndToEnd.StreamDelivers: the two stores of `finished` are taken as done and the stream as one `RoomNeeded.StreamExactly` admits; the other cases are `MuxDraining.LeftBehind` and that lemma.
- Timestamps.RoundTrip: times over 2^64 / 27000 ms, where the product wraps, are left out.
- RoomNeeded.StreamExactly: streams where a start code begins inside the header of another are left out: there a start code can be taken with the header before it whatever the chunks are.
- ChunkLengths.LengthsExactly: the same streams are left out; a first chunk no longer than the cache is the matter of `PacketBrackets.RunBrackets` and `PacketizingRuns.SafeRuns`.
- KeysNeeded.KeysExactly: the same streams are left out, and packets cut by the cap, for which `KeyPackets.CapMarks` and `KeyPictures.AllKeysMarked` say what decides.
- EndToEnd.KeysDeliver: units with both kinds of headers are left out, because there the mark of a unit's first packet depends on the chunks (`KeyPackets.CapMarks`).
- NalLengths.LengthsExactly: streams that do not begin with a start code are left out, because what comes before the first one is sent behind a NAL header that was never set.
- Wire.NalsDeliver: the last NAL unit is not sent whole, because RtpPayloadAvc has no call that ends one.
- ProgramStream.SystemHeader.ToBitStream: tables without id 0xB7, as above; `Headers.SystemHeaderReads` likewise.
- Packs.ProgramStreamMap.ToBitStream: maps without stream id 0xFD, as above.
