# lbry.go core in Dafny: DHT message handling, claim payout scripts, ytsync argument checks

This project models three pieces of the lbry.go repository and proves properties about them.

- **The inbound side of the Kademlia DHT node** (`dht/dht.go`), covering:
  - the constants: alpha, the identifier length of 48 bytes, the bucket size k = 20, the bucket count and the compact-node-info length;
  - the default configuration;
  - `handle`, which dispatches a decoded datagram on its type tag;
  - `handleRequest`, which checks each request, replies, writes to the peer store and records the sender in the routing table;
  - `handleResponse` and `handleError`;
  - `getArgs`;
  - `argsToString`, which formats arguments for logs.

  The node is the class `Dht.Node`:
  - `routingTable` lists every contact passed to `RoutingTable.Update`.
  - `store` lists every `peerStore.Insert` call.
  - `sent` lists every response handed to `send`.
  - `FindClosest` and `Get` are functions of those histories. The constructor receives them and never interprets them.

  The handler methods are proved against pure decision functions (`Accepts`, `Reply`, `Dispatch`).
- **The LBRY claim payout scripts** (`lbrycrd/script.go`). A script is a sequence of tokens: an opcode or a data push. `PayToAddrScript` is a possibly-failing function argument. Claim ids are decoded as base16 (section 8 of RFC 4648), the way Go's `encoding/hex` does it (module `Hex`), and their bytes are reversed before the push. A reader function, `ParsePayout`, takes a script apart again. The round-trip lemmas use it.
- **The argument checks of the `ytsync` command** (`cmd/ytsync.go`). They run in source order and end either in a rejection or in the `Sync` configuration.

Go strings are byte strings, so both `string` and `[]byte` are `Bytes = seq<byte>`.

Two behaviours of the code differ from the usual Kademlia contract. The model follows the code:
- `findValue` does not return stored values. It looks them up and then answers exactly like `findNode` (`dht/dht.go:266-279`).
- The sender is recorded in the routing table only when a request passes every check, not after every request (`dht/dht.go:287-289`).

## Model

| member | source | states |
|---|---|---|
| `Dht.NewStandardConfig` | dht/dht.go:46-56 | The default config has no node id, so one is generated. It listens on port 4444 and has three distinct seed nodes, each on the same port as the local address. |
| `Dht.Reply` | dht/dht.go:228-285 | A reply exists exactly when the request passes the self-id, method and argument checks. Every reply echoes the request id and carries the local id. ping and store get their fixed success payloads and no contacts. findNode and findValue get `FindClosest(target, 20)` element for element, with an empty data string. |
| `Dht.SelfRequestIgnored` | dht/dht.go:223-226 | A request claiming the local node's id gets no reply. |
| `Dht.EmptyKeyIgnored` | dht/dht.go:232-235 | A store request with an empty blob hash gets no reply. |
| `Dht.MissingTargetIgnored` | dht/dht.go:240-264 | findNode or findValue with no arguments, or with a first argument that is not 48 bytes long, gets no reply. |
| `Dht.FindValueRepliesAsFindNode` | dht/dht.go:266-279 | findValue produces the very reply findNode produces for the same request, whatever the store holds. |
| `Dht.Node.HandleRequest` | dht/dht.go:222-290 | Returns true exactly when `Accepts` holds. In that case: a store request adds exactly one `Insert(BlobHash, StoreArgs.NodeID)`; one reply goes to the source address, computed from the routing table as it was before the request; then the sender (claimed id, source ip and port) is passed to `Update`. Otherwise store, routing table and output are unchanged. |
| `Dht.Node.FindNodeResponse` | dht/dht.go:248-254 | The findNode response echoes the request id, carries the local id, and its contact list equals `FindClosest(target, 20)` in order and length. |
| `Dht.Node.Send` | dht/dht.go:322-340 | Sending appends exactly one datagram, to the given address, to the output. |
| `Dht.Node.HandleResponse` | dht/dht.go:293-311 | Always returns true and records the responder, with no self-id check. Store and output are unchanged. |
| `Dht.Node.HandleError` | dht/dht.go:314-319 | Always returns true and records the sender of the error, with no self-id check. Store and output are unchanged. |
| `Dht.Node.Handle` | dht/dht.go:169-219 | Runs the handler `Dispatch` selects, with that handler's effect. A dropped datagram changes nothing. |
| `Dht.Node.constructor` | dht/dht.go:90-97 | A new node starts with an empty routing table, an empty store and nothing sent. |
| `Dht.Dispatch` | dht/dht.go:172-218 | A datagram is dropped exactly when it does not decode, has no type tag, has an unknown tag, or does not decode as the shape its tag names. Otherwise it goes to the handler its tag names, carrying the decoded request or response itself. An error message carries the datagram's id, sender id and exception text, and its arguments converted by `getArgs` (`ArgStrings`). |
| `Dht.DispatchDelivers` | dht/dht.go:185-213 | Every tagged message that decodes as its shape reaches its handler. |
| `Dht.DispatchAsWritten` | dht/dht.go:185-217 | With the debug log lines included, `handle` panics exactly when a delivered message's id or sender id is shorter than 4 bytes. Otherwise it agrees with `Dispatch`. |
| `Dht.ShortRequestIdPanics` | dht/dht.go:193 | A ping with a 2-byte request id crashes `handle` as written, while the dispatch delivers it. |
| `Dht.SendAsWritten` | dht/dht.go:322-340 | With its debug log line included, `send` panics exactly when the response id is shorter than 4 bytes. Otherwise it sends the response to the given address. |
| `Dht.ShortIdReplyPanicsInSend` | dht/dht.go:326 | Every reply echoes the request id, so an accepted request with an id shorter than 4 bytes makes `send` as written panic on its reply. Removing only the slice in `handle` would not stop the crash. |
| `Dht.ArgStrings` | dht/dht.go:342-351 | `getArgs` keeps the element count and converts each element with `cast.ToString`, in order. |
| `Dht.GetArgs` | dht/dht.go:342-351 | The append loop builds exactly `ArgStrings`. |
| `Dht.Abbreviate` | dht/dht.go:356-360 | An argument that is not 48 bytes long is unchanged. A 48-byte argument becomes 8 lowercase hex digits, the encoding of its first 4 bytes. |
| `Dht.AbbreviationDecodes` | dht/dht.go:358 | An abbreviated identifier decodes back to the identifier's first 4 bytes. |
| `Dht.AbbreviateAll` | dht/dht.go:354-360 | The argument count is kept and each argument is abbreviated in place. |
| `Dht.ArgsToString` | dht/dht.go:353-362 | Copying, abbreviating the copy and joining gives `FormatArgs`. The caller's array is not modified. |
| `Dht.FormatNoArgs` | dht/dht.go:361 | No arguments give the empty string. |
| `Dht.FormatArgsSnoc` | dht/dht.go:361 | Each further argument appends ", " and its abbreviation. |
| `Dht.FormatArgsLength` | dht/dht.go:361 | The result is as long as the abbreviated arguments plus 2 characters per gap. |
| `Bytes.JoinSnoc` | dht/dht.go:361 | Joining one more part appends the separator and that part. |
| `Bytes.JoinLength` | dht/dht.go:361 | A join is as long as its parts plus one separator per gap. |
| `Hex.Encode` | dht/dht.go:358 | Hex encoding doubles the length and writes each byte as its high nibble's digit and then its low nibble's digit. |
| `Hex.EncodeDigits` | dht/dht.go:358 | The encoder writes only lowercase hex digits. |
| `Hex.EncodePrefix` | dht/dht.go:358 | The first 8 hex characters of an encoding are the encoding of the first 4 bytes. |
| `Hex.Decode` | lbrycrd/script.go:20 | Decoding succeeds exactly on even-length strings of hex digits (either case), yields half as many bytes, and pairs the digits high nibble first. An invalid-byte error names a non-hex character of the input. |
| `Hex.DecodeEncode` | lbrycrd/script.go:20 | Decoding what the encoder wrote gives back the bytes. |
| `Hex.EncodeDecode` | lbrycrd/script.go:20 | Encoding what the decoder accepted gives back the input with its letters lowercased. |
| `Bytes.Reverse` | lbrycrd/script.go:28 | `rev` keeps the length and puts element i at position n-1-i. |
| `Bytes.ReverseReverse` | lbrycrd/script.go:28 | Reversing twice is the identity. |
| `Script.ClaimSupportPayoutScript` | lbrycrd/script.go:12-34 | An address error wins over a claim-id error. A bad claim id fails with the decoder's error. The builder succeeds exactly when both steps succeed. A successful script has 5 tokens before the pay-to-address script and ends with OP_2DROP, OP_DROP and that script. |
| `Script.ClaimNamePayoutScript` | lbrycrd/script.go:36-52 | Fails exactly when the address step fails. A successful script has 5 tokens before the pay-to-address script and ends with OP_2DROP, OP_DROP and that script. |
| `Script.UpdateClaimPayoutScript` | lbrycrd/script.go:54-76 | Same error order as the support builder. A successful script has 6 tokens before the pay-to-address script and ends with OP_2DROP, OP_DROP and that script. |
| `Script.ParsePayout` | lbrycrd/script.go:13 | A script read as a claim ends with OP_2DROP, OP_DROP and the rest of the script. |
| `Script.SupportScriptReadsBack` | lbrycrd/script.go:20-32 | A support script reads back as a support claim with the name and the decoded claim id, followed by the address's script. Hex-encoding that claim id gives back the caller's claim id, lowercased. |
| `Script.ClaimIDPushedReversed` | lbrycrd/script.go:20-28 | The pushed claim id is half as long as its hex form, and reversing it gives back the decoded claim id. |
| `Script.NameScriptReadsBack` | lbrycrd/script.go:44-51 | A claim-name script reads back as the name and the value, verbatim, followed by the address's script. |
| `Script.UpdateScriptReadsBack` | lbrycrd/script.go:62-75 | An update script reads back as the name, the decoded claim id and the value, followed by the address's script. |
| `YtSync.SyncFromArgs` | cmd/ytsync.go:34-65 | The checks, in source order: an empty channel name (a Go panic), a name not starting with '@', `--stop-on-error` with a `--max-tries` other than 3, then `--max-tries` below 1. A name error is reported whatever the flags are. Acceptance holds exactly when all checks pass. The accepted config copies the API key, channel name and flags, takes the channel id from the third argument or leaves it "", and sets ConcurrentVideos to 1. |
| `YtSync.EveryValidSyncReachable` | cmd/ytsync.go:56-65 | Every config that meets the accepted invariants is produced by the command line that spells out its fields. |

## Findings

| source | as written | input that shows it | evidently intended | confidence | as-written member | corrected member |
|---|---|---|---|---|---|---|
| dht/dht.go:193 (also 202, 212 and 326) | Before calling its handler, each branch of `handle` evaluates a debug log line. That line slices the hex of the message id and of the sender id to `[:8]`. Go evaluates the arguments even when debug logging is off, so an id shorter than 4 bytes panics and stops the handler loop. `send` does the same with the response id at line 326, and every reply copies the request id, so it would crash on the reply even if `handle` were fixed. | A request datagram with type tag 0 and a 2-byte id, e.g. a ping with id `[1, 2]` | A malformed or short id must not crash the node. The message is handled or dropped like any other. | high; not executed | `Dht.DispatchAsWritten`, `Dht.ShortRequestIdPanics`, `Dht.SendAsWritten`, `Dht.ShortIdReplyPanicsInSend` | `Dht.Dispatch`, `Dht.DispatchDelivers`, `Dht.Node.Handle`, `Dht.Node.Send` |

## Left out

- UDP plumbing and concurrency. Not modelled: `init`, `listen` (the reader goroutine and the `packets` channel), `runHandler`, `Run` and `join`. `join` only resolves seed addresses; its body is commented out.
- `New` is not modelled. It generates a random id, parses the address with `net.SplitHostPort` and `cast.ToIntE`, and panics on errors. The node is built directly from its contact.
- bencode decoding is not modelled. `Datagram` is the decoder's output. The `.(int64)` and `.(string)` assertions in `handle` panic on wrongly typed fields; the model's types rule that out.
- The routing table, the peer store, `bitmap` and the header and method-name constants live in files outside this model.
  - `Update` and `Insert` are recorded, not interpreted.
  - `FindClosest` and `Get` are supplied functions.
  - `newBitmapFromString` is taken to keep the identifier's bytes.
  - The type tag values 0, 1 and 2 are the LBRY DHT protocol's.
- `Dht.Node.Send` does not model encoding or write failures. It records every response. The handlers ignore `send`'s error, so their outcome is the same. It also leaves out the debug log line's `hex(res.ID)[:8]` slice at dht/dht.go:326; that is the corrected behaviour of the Findings row, and `Dht.SendAsWritten` models the line as written.
- Logging and `spew.Dump` are not modelled. The log expressions that change behaviour, the `[:8]` slices in `handle` (dht/dht.go:193, 202, 212) and in `send` (dht/dht.go:326), are modelled under Findings.
- `Dht.ArgStrings` covers only a list argument. `getArgs` on a non-list value (which gives an empty list) and on nil (which panics) is not modelled. `cast.ToString` is modelled for strings, integers, lists and dictionaries.
- The transaction manager, iterative lookup and the refresh, replicate, republish and expire timers are not in this source; the join and response-matching code is commented out. Only the time constants exist, and nothing reads them.
- `Script.ClaimSupportPayoutScript`: does not model the script builder's own failures (pushes over the element size limit). Push-data byte encoding and opcode byte values are not modelled either.
- `Script.ClaimNamePayoutScript`: does not model the script builder's own failures (pushes over the element size limit).
- `Script.UpdateClaimPayoutScript`: does not model the script builder's own failures (pushes over the element size limit).
- `schema/stake/serialization.go` is not part of this model. Its behaviour is protobuf library calls.
- ytsync plumbing is not modelled: cobra command registration and flag binding, `s.FullCycle()` and logging. Cobra admits only 2 or 3 positional arguments, which becomes the precondition of `YtSync.SyncFromArgs`.
