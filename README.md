# Ordinazioni — a Dafny model of the ordering and receipt-printing core

Ordinazioni is a small ordering system for a parish festival ("sagra"). A web
till (`src/App.jsx`) takes orders into a cart, writes them to Firestore
(`src/services/firestoreService.js`) and decrements the menu stock. Print
stations (`print-station/src/print-station.js`) listen for new orders and
compile each one into Epson ESC/POS bytes (`print-station/src/receiptGenerator.js`,
`print-station/src/escpos-commands.js`). They hand the bytes to the operating
system's printer (`print-station/src/printManager.js`) and write back a
`printStatus` record. A stand-alone HTTP print server
(`print-server/src/print-server.js`, `print-server/src/print-manager.js`)
does the same for raw bytes, plain text and legacy receipts. The web app has
its own receipt compiler (`src/services/receiptGenerator.js`). An older mock
version of the till (`old/src/ordering-system.tsx`) keeps orders and menu in
an in-memory store.

The model has one module per part of the system:

- `Common`: Option/Result, repetition, decimal text, filter/count, upper
  case, split/join.
- `EscPos`: the command byte table and the text helpers. The module also
  defines a decoder from bytes back to printer commands (`Decode`, with
  `Encode` as its inverse). With it, every compiled receipt is stated as
  the sequence of commands it makes the printer perform. `FullCuts` counts
  the full cuts; `Clean` says the bytes hold only whole, known commands.
- `ReceiptLayout`: what the two `ReceiptGenerator` classes share. This is
  the configuration spread, separator and price lines, and the
  header/items/total/footer sections.
- `StationReceipt`: the print station's generator, including grouping by
  preparation line and the per-line cut segments.
- `WebReceipt`: the web app's generator and `generateSimpleText`.
- `PrintServer`: `generateTextContent`, `generateReceiptContent`, content
  normalisation, job naming and the three POST routes.
- `PrintManager`: both printer managers. It covers the placeholder guard,
  command strings, printer-list parsing and the raw-print path.
- `PrintStation`: the station as a class over an abstract document store.
  It covers start/stop lifecycle, the snapshot filter, the print-status
  writer and the statistics.
- `ConfigManager`: the configuration as a JSON tree. It covers recursive
  merge over defaults, dotted-path get/set, validation and loading, with a
  `Manager` class holding the current tree.
- `FirestoreService`: the new-order record, the query filters, the
  listener registry (a class) and the lazily created singleton.
- `Cart`: the cart helpers shared by the web till and the old mock till.
- `App`: the web till as a class, with the customer number, order data,
  clamped stock write-back and the kitchen screen filter.
- `OldOrdering`: the old mock store and till as classes, with unclamped
  stock decrement, count-based numbering and the kitchen filter.

Operations that build a value step by step in a loop are methods with loop
invariants. Each is proved equal to a specification function, and the
lemmas state properties of that function. Objects whose fields the source
updates are classes whose methods state the entire new state.

## Model

| member | source | states |
|---|---|---|
| EscPos.TextToBytes | print-station/src/escpos-commands.js:123-133 | one byte per character, equal to its code, so the byte count is the character count |
| EscPos.DecodeEncode | print-station/src/escpos-commands.js:8-61 | decoding the bytes of any list of well-formed printer commands gives back that list |
| EscPos.EncodeDecode | print-station/src/escpos-commands.js:8-61 | every byte string is exactly the concatenation of the commands it decodes to, with nothing lost |
| EscPos.ControlConstantsDecode | print-station/src/escpos-commands.js:9-21 | INIT is ESC @, LF one feed, CUT.FULL is GS V 0 (the only one of these that cuts fully), CUT.PARTIAL is GS V 1, and THREE_LINES is three feeds |
| EscPos.AlignConstantsDecode | print-station/src/escpos-commands.js:27-31 | ALIGN.LEFT/CENTER/RIGHT are ESC a with n = 0, 1, 2 |
| EscPos.ModeConstantsDecode | print-station/src/escpos-commands.js:34-45 | NORMAL, DOUBLE_HEIGHT, DOUBLE_WIDTH and DOUBLE_SIZE are ESC ! with 0, 0x10, 0x20 and 0x30 |
| EscPos.FaceConstantsDecode | print-station/src/escpos-commands.js:36-41 | bold, underline and italic on/off are single emphasis, underline and italic commands that never cut |
| EscPos.FeedCustom | print-station/src/escpos-commands.js:60 | `FEED.CUSTOM(n)` is exactly n LF bytes and cuts nothing |
| EscPos.TextStyleDecode | print-station/src/escpos-commands.js:34-45 | a style name other than an `Object.prototype` member has bytes exactly when it is one of the TEXT_STYLE keys, and those bytes decode to that style's command |
| EscPos.AlignBytesDecode | print-station/src/escpos-commands.js:27-31 | an alignment name other than an `Object.prototype` member has bytes exactly when it is LEFT, CENTER or RIGHT, and they set that alignment |
| EscPos.StyledText | print-station/src/escpos-commands.js:138-146 | the style prefix, only for a known style, then the text bytes, and always NORMAL at the end |
| EscPos.StyledTextDecode | print-station/src/escpos-commands.js:138-146 | the printer sees the optional style, the text's characters, and a reset to normal size; nothing is cut |
| EscPos.AlignedText | print-station/src/escpos-commands.js:151-159 | the alignment prefix, only for a known name, then the text bytes, and always ALIGN.LEFT at the end |
| EscPos.AlignedTextDecode | print-station/src/escpos-commands.js:151-159 | the printer sees the optional alignment, the characters, and left alignment; nothing is cut |
| EscPos.LeftAlignedDecode | print-station/src/escpos-commands.js:151-159 | the default alignment sets left, prints the text, and sets left again |
| EscPos.Separator | print-station/src/escpos-commands.js:164-168 | `n` copies of the character followed by one LF: n·\|c\|+1 bytes that print the repetition and one feed |
| EscPos.Prefix | print-station/src/escpos-commands.js:176-178 | JavaScript `substring(0, end)`: the longest prefix of at most `end` characters, empty for a negative end |
| EscPos.PriceLine | print-station/src/escpos-commands.js:173-181 | fails exactly when the line text cannot be formed; otherwise one LF-terminated text line that cuts nothing |
| EscPos.PriceLineLayout | print-station/src/escpos-commands.js:173-181 | when the width leaves room for the price plus 4, the line is exactly `lineWidth` characters before the LF and ends with the whole price; a long description is cut and followed by "..." |
| EscPos.PriceLineFails | print-station/src/escpos-commands.js:173-181 | `priceLine` throws (negative repeat count) exactly when the description is too long and fewer than 2 columns are left for it |
| EscPos.CenterText | print-station/src/escpos-commands.js:186-189 | max(0, floor((width − len)/2)) spaces, the text, and one feed |
| EscPos.CenterTextBalanced | print-station/src/escpos-commands.js:186-189 | for text that fits, the left padding and the space left on the right differ by at most one |
| EscPos.Header | print-station/src/escpos-commands.js:194-205 | starts with ALIGN.CENTER + DOUBLE_SIZE and ends with ALIGN.LEFT |
| EscPos.HeaderDecode | print-station/src/escpos-commands.js:194-205 | centred double-size title line, back to normal size, the subtitle line only when non-empty, then left alignment; nothing is cut |
| EscPos.Footer | print-station/src/escpos-commands.js:210-221 | always ends with the full-cut bytes |
| EscPos.FooterDecode | print-station/src/escpos-commands.js:210-221 | the centred message only when non-empty, then k + 3 feeds and exactly one full cut, as the very last command |
| EscPos.ConcatClean | print-station/src/escpos-commands.js:138-221 | joining well-formed pieces is well formed, and its full cuts are the sum of the pieces' cuts |
| EscPos.DecodeConcat | print-station/src/escpos-commands.js:138-221 | the commands of joined well-formed pieces are the pieces' commands in order |
| EscPos.OpenStylesDecode | src/services/receiptGenerator.js:240-255 | INIT, then centre, bold and double size, each only when asked for, in that order |
| EscPos.TerminatedTextDecode | src/services/receiptGenerator.js:257-261 | the text's characters, then a feed only when the text does not already end in '\n', so the printed text always ends with a feed |
| ReceiptLayout.ResolveKey | print-station/src/receiptGenerator.js:23-32 | a key given in the options wins even when falsy, because the options are spread last; a missing key takes the default |
| ReceiptLayout.ResolveConfig | print-station/src/receiptGenerator.js:23-32 | every configuration field is the given option when present and the default otherwise |
| ReceiptLayout.SeparatorLineLayout | print-station/src/receiptGenerator.js:334-341 | the separator character repeated exactly `width` times, then one LF |
| ReceiptLayout.PaddedPriceLineLayout | print-station/src/receiptGenerator.js:346-358 | the price is always the intact end of the line; with a price shorter than the width the line is exactly `width` characters; a description that does not fit is cut to width − len(price) − 1 characters plus one space, with no ellipsis |
| ReceiptLayout.LinesPrint | print-station/src/receiptGenerator.js:241-261 | a block of text lines is the lines in order, each followed by LF; it is well formed and cuts nothing |
| ReceiptLayout.PushLines | print-station/src/receiptGenerator.js:241-261 | the push loop produces exactly the lines in order, each followed by LF |
| ReceiptLayout.ReceiptHeaderClean | print-station/src/receiptGenerator.js:219-236 | the receipt header is well formed and never cuts |
| ReceiptLayout.InfoLines | print-station/src/receiptGenerator.js:241-261 | the order information is three lines |
| ReceiptLayout.ItemsListLines | src/services/receiptGenerator.js:109-126 | two lines per item, in order: "{quantity or qty}x {name}" and the item's price line |
| ReceiptLayout.ItemsListStep | print-station/src/receiptGenerator.js:266-283 | one more item appends exactly its quantity line and its price line, each LF-terminated |
| ReceiptLayout.CreateItemsList | print-station/src/receiptGenerator.js:266-283 | the item loop builds exactly two LF-terminated lines per item, in item order |
| ReceiptLayout.TotalBlockDecode | src/services/receiptGenerator.js:131-148 | the bold "TOTALE:" price line sits between an item-separator line and a final separator line; nothing is cut |
| ReceiptLayout.ReceiptFooterLayout | print-station/src/receiptGenerator.js:310-329 | the centred footer only when configured, then the feeds and one full cut; the bytes end with exactly those feeds and GS V 0 |
| StationReceipt.StationConfigDefaults | print-station/src/receiptGenerator.js:23-32 | defaults are width 48, "EUR", "=" and "-"; an explicit width 0 overrides the default |
| StationReceipt.LineNames | print-station/src/receiptGenerator.js:81-93 | the group names have no repeats, cover every item's line (a missing or empty line counts as "GENERALE"), and each one is some item's line |
| StationReceipt.SortIndices | print-station/src/receiptGenerator.js:69 | the array-index keys in ascending numeric order, the same keys as before |
| StationReceipt.InsertAscending | print-station/src/receiptGenerator.js:69 | adding an index key to ascending index keys keeps them ascending |
| StationReceipt.EntryOrderKeys | print-station/src/receiptGenerator.js:69 | `Object.entries` lists every distinct line exactly once and nothing else: first the array-index names (canonical decimals below 2^32 - 1) in ascending order, then the other names in the order the items first name them |
| StationReceipt.NumericLinesAscend | print-station/src/receiptGenerator.js:69-93 | items on lines "2" then "1" are grouped with "2" first, yet their segments print "1" first |
| StationReceipt.ItemsOn | print-station/src/receiptGenerator.js:81-93 | a group holds only items of the input that are on that line |
| StationReceipt.ItemsOnAbsent | print-station/src/receiptGenerator.js:81-93 | a line that is no item's line has an empty group |
| StationReceipt.GroupItemsByPreparationLine | print-station/src/receiptGenerator.js:81-93 | fails (the TypeError of `push` on an inherited member) exactly when an item's line is named like an `Object.prototype` member such as "toString"; otherwise the object's keys are the distinct lines in `Object.entries` order, each holding that line's items in input order |
| StationReceipt.GroupsPartition | print-station/src/receiptGenerator.js:81-93 | the groups' sizes add up to the number of items and every item lies in its own line's group: each item is in exactly one group |
| StationReceipt.SegmentLines | print-station/src/receiptGenerator.js:158-162 | one "{quantity}x {name}" line per item of the group, in order |
| StationReceipt.CreateLineCut | print-station/src/receiptGenerator.js:143-172 | the segment built by the loop equals the specified segment |
| StationReceipt.LineCutLayout | print-station/src/receiptGenerator.js:143-172 | centre, bold, double size, the upper-cased line name, reset, two feeds, one line per item of that group only, five feeds and exactly one full cut |
| StationReceipt.CreateOrderInfo | print-station/src/receiptGenerator.js:241-261 | the order-information pushes produce the specified block |
| StationReceipt.PushLineCuts | print-station/src/receiptGenerator.js:62-73 | fails exactly when grouping throws; otherwise one segment per distinct preparation line, array-index names ascending first, then the others in first-seen order |
| StationReceipt.PushMainSections | print-station/src/receiptGenerator.js:40-61 | INIT, header, order info, summary header, items, total and footer, in that order |
| StationReceipt.GenerateReceiptCommands | print-station/src/receiptGenerator.js:40-76 | the main sections, then the line segments in key order only when line cuts are on and there are items; no receipt when grouping throws |
| StationReceipt.LineCutsCuts | print-station/src/receiptGenerator.js:62-73 | the segments for n distinct lines are well formed and cut exactly n times |
| StationReceipt.StationMainCuts | print-station/src/receiptGenerator.js:40-61 | the main receipt is well formed and cuts exactly once, at the footer |
| StationReceipt.StationReceiptCuts | print-station/src/receiptGenerator.js:40-93 | there is no receipt exactly when line cuts are wanted and an item's line is a prototype name; otherwise the output is well formed and cuts 1 + (number of distinct lines) times with line cuts on and items present, and once otherwise |
| StationReceipt.StationReceiptStartsWithInit | print-station/src/receiptGenerator.js:44 | the output always begins with ESC @ |
| WebReceipt.WebConfigDefaults | src/services/receiptGenerator.js:21-31 | with no options the configuration is the web defaults: width 32, title "SAGRA PARROCCHIA" |
| WebReceipt.CreateOrderInfo | src/services/receiptGenerator.js:85-104 | the order-information pushes produce the specified block |
| WebReceipt.GenerateOrderReceipt | src/services/receiptGenerator.js:36-58 | INIT, header, order info, items, total and footer, in that order |
| WebReceipt.OrderReceiptCuts | src/services/receiptGenerator.js:36-58 | the receipt is well formed and cuts exactly once |
| WebReceipt.OrderReceiptFrame | src/services/receiptGenerator.js:40 | the receipt starts with INIT 1B 40 and ends with LF LF LF and the full cut 1D 56 00 |
| WebReceipt.SimpleResetDecode | src/services/receiptGenerator.js:264-266 | the reset is normal size, bold off and left alignment |
| WebReceipt.SimpleTailDecode | src/services/receiptGenerator.js:268-272 | two feeds and a full cut unless `cut === false`, otherwise nothing |
| WebReceipt.SimpleTextDecode | src/services/receiptGenerator.js:240-275 | INIT, the requested styles in order, the text ending in exactly one feed, the full reset, and the cut only when not disabled: one cut or none |
| PrintServer.TextTailDecode | print-server/src/print-server.js:255-258 | three feeds and a full cut unless `cut === false` |
| PrintServer.TextContentDecode | print-server/src/print-server.js:228-261 | INIT, centre/bold/double size only when asked for and in that order, the text with a feed added only when missing, NORMAL and LEFT, then three feeds and a cut unless disabled |
| PrintServer.ItemPushDecode | print-server/src/print-server.js:276-282 | each item prints its "{qty} x {name}" line and its price line |
| PrintServer.PushServerItems | print-server/src/print-server.js:276-282 | the item loop produces the specified item block |
| PrintServer.ServerItemsClean | print-server/src/print-server.js:276-282 | the item block is well formed and cuts nothing |
| PrintServer.GenerateReceiptContent | print-server/src/print-server.js:264-292 | the pushes produce the specified receipt, or nothing when the total line cannot be laid out |
| PrintServer.ReceiptContentDefined | print-server/src/print-server.js:286 | the receipt fails only when the total line leaves fewer than two columns for "TOTALE:"; a width of at least the price plus 8 always succeeds |
| PrintServer.ReceiptContentCuts | print-server/src/print-server.js:264-292 | a receipt is well formed and cuts exactly once |
| PrintServer.ReceiptContentFrame | print-server/src/print-server.js:264-292 | a receipt starts with INIT and the centred double-size "SAGRA PARROCCHIA" header, and ends with a full cut |
| PrintServer.Normalise | print-server/src/print-server.js:297-310 | a number array keeps its length, and each byte is its value modulo 256 |
| PrintServer.NormaliseBytes | print-server/src/print-server.js:297-310 | an array of byte values passes through unchanged |
| PrintServer.NormaliseText | print-server/src/print-server.js:297-310 | a string prints as INIT, its characters, three feeds and exactly one full cut |
| PrintServer.PrintRawContent | print-server/src/print-server.js:294-339 | the job file holds the normalised bytes; a value other than an array or a string is refused by the file write and never printed; success exactly when the content is written and the print succeeds, with the job id defaulting to "UNKNOWN"; either failure reads "Stampa fallita: …" |
| PrintServer.JobFileNameShape | print-server/src/print-server.js:312 | the file is `print-<id>.bin`, with the job id when one is given |
| PrintServer.PrintRaw | print-server/src/print-server.js:105-124 | 400 exactly when `content` is falsy: missing, `""`, `0`, `false` or `null`; a truthy number, `true` or an object answers 500 with the write's refusal; a printed job has the given id or `JOB-<millis>` |
| PrintServer.PrintText | print-server/src/print-server.js:127-147 | 400 exactly when `text` is missing or empty; a printed job is named `TEXT-<millis>` |
| PrintServer.PrintReceipt | print-server/src/print-server.js:179-202 | 400 exactly when any of customerNumber, station, items, total is falsy (0 included); a printed job is named by the customer number; a total line with a negative space count answers 500 with V8's "Invalid count value: <count>" |
| PrintManager.BuildPrintCommand | print-server/src/print-manager.js:59-69 | an unsupported platform, and only that, throws "Piattaforma non supportata: …" |
| PrintManager.UnixPrintCommandShape | print-station/src/printManager.js:87-96 | `lp -d "<printer>"`, then ` -o raw` exactly in raw mode, then ` "<file>"` |
| PrintManager.RawByDefault | print-station/src/printManager.js:59-82 | an unset raw option means raw mode; on Windows raw mode is `copy /b "<file>" "\\localhost\<printer>"` |
| PrintManager.PrintFile | print-server/src/print-manager.js:28-54 | an empty or placeholder printer name rejects before any command; an unsupported platform rejects without running; otherwise the command runs once and a failure reads "Stampa fallita: …" |
| PrintManager.CheckPrinterStatus | print-server/src/print-manager.js:101-125 | the same guard, then the platform's status command; on success the printer is available with the trimmed output as status |
| Common.Trim | print-server/src/print-manager.js:48 | `trim()` returns a middle slice with only white space cut off both ends and no white space at either end |
| PrintManager.FirstToken | print-server/src/print-manager.js:183 | the longest prefix without white space |
| PrintManager.FindPrinter | print-server/src/print-manager.js:192-204 | the first position at which `printer ` is followed by a non-space name, if any |
| PrintManager.UnixEntry | print-server/src/print-manager.js:192-204 | a record exactly for lines matching `printer (\S+)`, with status "idle" iff the line contains "idle" |
| PrintManager.WindowsEntry | print-server/src/print-manager.js:177-191 | a record exactly for non-blank trimmed lines not starting with "Name", named by the first token |
| PrintManager.Entries | print-server/src/print-manager.js:174-208 | no more records than lines |
| PrintManager.ParsePrinterList | print-server/src/print-manager.js:174-208 | the per-line loop returns exactly the records of the specification, in line order |
| PrintManager.EntriesShape | print-server/src/print-manager.js:174-208 | every record comes from some line and has a non-empty name without white space; Windows records are "windows" with no status and never a heading; Unix records are "idle" or "unknown" |
| PrintManager.WindowsSkipsHeading | print-server/src/print-manager.js:177-179 | on Windows the first line never matters, whatever it says |
| PrintManager.ListPrinters | print-server/src/print-manager.js:141-158 | the platform's list command; on success the parsed printers and a count equal to their number |
| PrintManager.RawData | print-station/src/printManager.js:263-272 | an array keeps its length and each byte is its value modulo 256; a Buffer is written as it is and a string as its characters' bytes; an unsupported type is the error "Formato comandi non supportato" |
| PrintManager.RawFileCommand | print-station/src/printManager.js:323-336 | the raw file is always printed with raw mode on |
| PrintManager.PrintRawContent | print-station/src/printManager.js:254-318 | never throws: a placeholder printer or unsupported input gives "Stampa raw fallita: …"; success exactly when accepted and printed, writing `print-<jobId or time>.bin` under `<tmpdir>/print-station` joined with the platform's separator, and reporting the byte count and a job id defaulting to "UNKNOWN"; every error carries the prefix |
| PrintManager.RawFileInTemp | print-station/src/printManager.js:276-282 | the job file lies under the temporary directory and ends in ".bin"; on Windows the part after the directory uses backslashes only |
| PrintManager.RawJob | print-station/src/printManager.js:276-317 | a failed directory or file write gives "Stampa raw fallita: <error>" and runs nothing; otherwise the file is written, and success comes exactly on a supported platform with a successful command |
| PrintStation.OrDefault | print-station/src/print-station.js:41-42 | `value \|\| fallback`: the fallback exactly when the value is missing or empty |
| PrintStation.OrZero | print-station/src/print-station.js:272-274 | `value \|\| 0` on a number: a present number reads as itself, a missing one as 0 |
| PrintStation.SelectedIds | print-station/src/print-station.js:157-169 | the ids of the changes that would be processed, never more than the changes |
| PrintStation.ErrorOf | print-station/src/print-station.js:196-208 | no error exactly on a successful print; a failure always has a non-empty message ("Stampa fallita" by default) |
| PrintStation.OrderAttempts | print-station/src/print-station.js:248-259 | 0 when the document cannot be read, is missing, or has no print status |
| PrintStation.WithAttempt | print-station/src/print-station.js:219-243 | only `printStatus` and `updatedAt` change; printed = success, printedAt/printedBy set iff success with printedBy = station id, attempts = previous + 1, error recorded |
| PrintStation.RecordAttempt | print-station/src/print-station.js:219-243 | only the order with that id changes; a missing order leaves the store as it was (the failed update is swallowed) |
| PrintStation.CountPrint | print-station/src/print-station.js:264-284 | both counters up by exactly 1, missing ones read as 0, only the stats of this station change; no station document, no change |
| PrintStation.HandleAllJobs | print-station/src/print-station.js:157-169 | one print job per selected change, in delivery order; no document is created or removed |
| PrintStation.IgnoredChangesDoNothing | print-station/src/print-station.js:160-166 | modified and removed changes, and orders already printed, change nothing |
| PrintStation.AttemptsCountUp | print-station/src/print-station.js:225-229 | every attempt raises the stored attempt count by exactly one |
| PrintStation.PrintedOnce | print-station/src/print-station.js:160-166 | an added order, once written back, would be selected again exactly when its print failed |
| PrintStation.OutcomeOf | print-station/src/print-station.js:196-208 | the print counts as done exactly when the raw print succeeded |
| PrintStation.RawFailureRecorded | print-station/src/print-station.js:196-208 | a failed raw print's message is the error recorded on the order |
| PrintStation.Registration | print-station/src/print-station.js:102-129 | registration marks the station online with both counters reset to 0 |
| PrintStation.Ping | print-station/src/print-station.js:289-304 | an upsert of `online` and `lastPing` for this station only |
| PrintStation.FirstPrintCounted | print-station/src/print-station.js:264-284 | after registration and one print the statistics read 1 and 1 |
| PrintStation.Station.constructor | print-station/src/print-station.js:31-51 | id and name default to "cassa1" and "Cassa 1", temp dir to "./temp"; the station starts inactive with no listener or timer |
| PrintStation.Station.RegisterStation | print-station/src/print-station.js:102-129 | upserts the registration record; nothing else changes |
| PrintStation.Station.StartOrderMonitoring | print-station/src/print-station.js:134-152 | subscribes; the documents do not change |
| PrintStation.Station.StartHeartbeat | print-station/src/print-station.js:289-304 | starts the heartbeat timer; the documents do not change |
| PrintStation.Station.Start | print-station/src/print-station.js:73-97 | register, subscribe, start the heartbeat, then become active, in that order |
| PrintStation.Station.OnMonitoringError | print-station/src/print-station.js:141-149 | every listener error schedules one more resubscription, with no limit |
| PrintStation.Station.OnRetryTimer | print-station/src/print-station.js:144-148 | a scheduled retry subscribes again |
| PrintStation.Station.OnHeartbeat | print-station/src/print-station.js:289-304 | each tick marks the station online with the current time |
| PrintStation.Station.UpdateOrderPrintStatus | print-station/src/print-station.js:219-243 | the store becomes `RecordAttempt` of the old store; nothing else changes |
| PrintStation.Station.UpdatePrintStats | print-station/src/print-station.js:264-284 | the stations become `CountPrint` of the old stations; nothing else changes |
| PrintStation.Station.ProcessOrder | print-station/src/print-station.js:174-214 | one print job, exactly one status write whatever the outcome, and the stats only on success |
| PrintStation.Station.HandleOrdersSnapshot | print-station/src/print-station.js:157-169 | the changes are processed one at a time in delivery order, each only when selected |
| PrintStation.Station.Stop | print-station/src/print-station.js:309-337 | inactive; the listener and heartbeat are cancelled when present; the station is marked offline |
| ConfigManager.Merge | print-station/src/configManager.js:89-101 | the result has every user key and every default key |
| ConfigManager.MergeWithDefaults | print-station/src/configManager.js:89-101 | the copy-and-assign loop produces the recursive merge |
| ConfigManager.MergeIdempotent | print-station/src/configManager.js:89-101 | merging a configuration over itself gives it back |
| ConfigManager.UserValuesWin | print-station/src/configManager.js:94-96 | a user scalar, array or null at any path is what the merged tree holds there |
| ConfigManager.DefaultsSurvive | print-station/src/configManager.js:89-101 | a default value the user does not override along its path survives the merge |
| ConfigManager.GetKeys | print-station/src/configManager.js:135-152 | the key walk returns the value at the dotted path, or nothing once a key is absent or a non-object is reached |
| ConfigManager.SetPath | print-station/src/configManager.js:154-171 | a successful set leaves an object at the root |
| ConfigManager.SetKeys | print-station/src/configManager.js:154-171 | the key walk produces the specified update |
| ConfigManager.SetThenGet | print-station/src/configManager.js:154-171 | after `set(path, v)`, `get(path)` is v, and every path below it reads what v holds there |
| ConfigManager.SetKeepsOthers | print-station/src/configManager.js:154-171 | every path that does not extend the set path reads what it read before |
| ConfigManager.Validation | print-station/src/configManager.js:103-133 | with the sections present: the printer error iff the name is missing, empty or the placeholder; the port error iff it is falsy or, once converted to a number as `<` and `>` convert it, below 1 or above 65535 (NaN passes); the temp-dir error iff it is falsy |
| ConfigManager.StringToNumber | print-station/src/configManager.js:112 | a string compared with a number counts as 0 when it is blank or all white space |
| ConfigManager.DigitsToNumber | print-station/src/configManager.js:112 | a run of decimal digits, leading zeros included, converts to the number it spells |
| ConfigManager.NegatedDigitsToNumber | print-station/src/configManager.js:112 | a minus sign before digits converts to that number negated |
| ConfigManager.IntTextToNumber | print-station/src/configManager.js:112 | the decimal text of any integer compares exactly as the integer itself |
| ConfigManager.OneElement | print-station/src/configManager.js:112 | a one-element array compares as the text of its element |
| ConfigManager.IntegerPort | print-station/src/configManager.js:112 | for a JSON integer the port check is the plain test "outside 1..65535" |
| ConfigManager.NegativePort | print-station/src/configManager.js:112 | any port string of a minus sign and digits, "-0" included, is rejected |
| ConfigManager.PaddedDigits | print-station/src/configManager.js:112 | digits with white space around them convert as the digits alone, and the port check is then the range test on their value |
| ConfigManager.CoercedPorts | print-station/src/configManager.js:112 | "-5", "1e9", " ", "0x0", `[]`, `[0]` and `[70000]` are rejected; " 3001 " and `[1, 2]` (NaN) pass |
| ConfigManager.DefaultsNeedPrinter | print-station/src/configManager.js:21-47 | the default configuration fails validation only for its placeholder printer |
| ConfigManager.FromParsed | print-station/src/configManager.js:49-70 | a loaded file always has every default section |
| ConfigManager.Loaded | print-station/src/configManager.js:49-77 | whatever the file, the configuration has every default section |
| ConfigManager.LoadWithoutFile | print-station/src/configManager.js:71-76 | a missing or unreadable file gives exactly the defaults |
| ConfigManager.Manager.constructor | print-station/src/configManager.js:15-19 | the path defaults to "./config/config.json"; nothing is loaded yet |
| ConfigManager.Manager.LoadConfig | print-station/src/configManager.js:49-77 | the current configuration becomes the loaded tree |
| ConfigManager.Manager.Get | print-station/src/configManager.js:135-152 | loads on first use and returns the value at the dotted path |
| ConfigManager.Manager.Set | print-station/src/configManager.js:154-171 | loads on first use; the tree becomes the updated one when the set succeeds |
| ConfigManager.Manager.GetAll | print-station/src/configManager.js:199-204 | a copy of the top-level entries; the configuration itself is kept |
| FirestoreService.InitialPrintStatus | src/services/firestoreService.js:44-51 | not printed, 0 attempts, and no print time, printer, last attempt or error |
| FirestoreService.ItemId | src/services/firestoreService.js:35 | the item's own id when it has one, the generated id otherwise |
| FirestoreService.StoredItems | src/services/firestoreService.js:34-39 | one stored item per item, keeping name, quantity and price and dropping the preparation line |
| FirestoreService.FirestoreOrder | src/services/firestoreService.js:30-60 | customer number, station and total copied; the items are the stored items of the order's items (id, name, quantity, price each); the initial print status; created by "web-app"; all timestamps now |
| FirestoreService.NewOrderIsPrinted | src/services/firestoreService.js:44-51 | a new order as added is selected by the print station |
| FirestoreService.AddOrder | src/services/firestoreService.js:28-68 | succeeds with the written id exactly when the write succeeds; otherwise the write's error |
| FirestoreService.QueryClauses | src/services/firestoreService.js:95-108 | always ordered by timestamp last, descending unless a direction is given |
| FirestoreService.QuerySelects | src/services/firestoreService.js:99-108 | an order passes iff it matches the station when one is given and truthy, and the printed flag when one is given |
| FirestoreService.Put | src/services/firestoreService.js:88 | a set of one key: that key maps to the listener, every other key keeps its listener, a new key adds one entry |
| FirestoreService.Remove | src/services/firestoreService.js:192-198 | a delete of one key; every other key keeps its listener |
| FirestoreService.OverwriteForgets | src/services/firestoreService.js:88 | re-monitoring the same key drops the earlier unsubscribe function from the registry |
| FirestoreService.KeysApart | src/services/firestoreService.js:88-154 | order, orders and stations keys never collide, and distinct orders have distinct keys |
| FirestoreService.Service.MonitorOrderPrintStatus | src/services/firestoreService.js:73-90 | the registry maps `order_<id>` to the new listener, overwriting an earlier one |
| FirestoreService.Service.MonitorOrders | src/services/firestoreService.js:95-128 | the registry maps the filter key to the new listener |
| FirestoreService.Service.MonitorPrintStations | src/services/firestoreService.js:133-156 | the registry maps "printStations" to the new listener |
| FirestoreService.Service.Unsubscribe | src/services/firestoreService.js:192-198 | an unknown key changes nothing; a known one is cancelled and removed, the rest kept |
| FirestoreService.Service.UnsubscribeAll | src/services/firestoreService.js:181-187 | every listener is cancelled, in order, and the registry is empty |
| FirestoreService.Singleton.GetFirestoreService | src/services/firestoreService.js:202-209 | the first call creates the service, every later call returns that same instance |
| Cart.Find | src/App.jsx:63 | the entry with the id, or none exactly when no entry has it |
| Cart.Bump | src/App.jsx:66-70 | the entry with the id changes its quantity by the step; every other entry is unchanged |
| Cart.Drop | src/App.jsx:85 | exactly the entries with other ids remain |
| Cart.AddUnavailable | src/App.jsx:62-64 | adding an item with no stock left is a no-op |
| Cart.AddShape | src/App.jsx:62-75 | an item already in the cart goes up by one with the rest unchanged; otherwise it is appended with quantity 1 |
| Cart.AddCounts | src/App.jsx:62-75 | adding keeps ids unique and raises that item's count by one and no other |
| Cart.RemoveCounts | src/App.jsx:77-88 | removing keeps ids unique and lowers that item's count by one, to nothing at zero, and no other |
| Cart.RemoveUnknown | src/App.jsx:77-88 | removing an unknown id is a no-op |
| Cart.AddThenRemove | src/App.jsx:62-88 | removing right after adding an available item gives the original cart back |
| Cart.AddRaisesTotal | src/App.jsx:90-92 | adding an available item raises the total by its price (by the stored price when already in the cart) |
| Cart.DropWellFormed | src/App.jsx:85 | dropping an entry keeps ids unique and quantities positive |
| Cart.QuantityOfEntry | src/App.jsx:90-92 | in a well-formed cart an item's count is its entry's quantity, 0 when absent |
| App.MaxNumber | src/App.jsx:29-30 | the maximum of the start and every order's number (missing as 0), and one of them |
| App.NextCustomerNumber | src/App.jsx:29-31 | at least 1, above every existing number, and one past the largest |
| App.NextAfterNewOrder | src/App.jsx:29-31 | after a new order the next number is above it and never goes down |
| App.MenuItemOf | src/App.jsx:35-38 | a menu item shows the document's current quantity as its availability, 0 when unset |
| App.MenuShowsStock | src/App.jsx:35-38 | a written-back stock is what the menu shows next |
| App.FindMenu | src/App.jsx:118 | the menu item with the id, or none exactly when the menu lacks it |
| App.Remaining | src/App.jsx:120 | max(0, available − ordered): never negative, and the difference whenever that is not negative |
| App.OrderItems | src/App.jsx:99-105 | one order item per cart entry, in order |
| App.OrderOf | src/App.jsx:98-110 | the order data carries one item per cart entry, the station and the customer number |
| App.StockAfter | src/App.jsx:117-125 | the write-back touches no new document |
| App.StockNeverNegative | src/App.jsx:117-125 | every stock is either left as it was or written as a non-negative number; items not in the cart keep theirs |
| App.StockOfOrderedItem | src/App.jsx:117-125 | an ordered item's stock becomes max(0, menu availability − quantity ordered) |
| App.Till.OnOrders | src/App.jsx:29-31 | the customer number follows the orders snapshot; nothing else changes |
| App.Till.OnMenu | src/App.jsx:35-38 | the menu follows the menu snapshot; nothing else changes |
| App.Till.AddToCart | src/App.jsx:62-75 | the cart becomes the added cart; nothing else changes |
| App.Till.RemoveFromCart | src/App.jsx:77-88 | the cart becomes the reduced cart; nothing else changes |
| App.Till.ProcessOrder | src/App.jsx:94-138 | an empty cart does nothing; otherwise the order is sent, and when it is created the stock is written back clamped, the cart emptied and the number advanced by one; without an id nothing changes |
| App.LineItems | src/App.jsx:338-339 | exactly the order's items on that line |
| App.Cards | src/App.jsx:308-312 | one card per queued order, showing only that line's items, and every queued order has a card |
| App.KitchenView | src/App.jsx:304-312 | nothing exactly for an unknown line; otherwise only pending orders with an item on the line |
| App.KitchenShowsQueue | src/App.jsx:304-339 | an order is on the screen iff it is pending with an item on the line, and its card shows exactly that line's items |
| App.CardsAppend | src/App.jsx:308-312 | the cards of two lists of orders are the cards of each, in order |
| OldOrdering.FirstIndex | old/src/ordering-system.tsx:25-32 | `find` by id as a position (`OrderIndex` for orders, `ItemIndex` for menu items): the first element with the key, or none exactly when no element has it |
| OldOrdering.FirstIndexSameKeys | old/src/ordering-system.tsx:29-32 | changing fields other than the key (an availability) leaves every `find` result in place |
| OldOrdering.MockFirebase.AddOrder | old/src/ordering-system.tsx:20-24 | appends exactly one order, "pending", with every supplied field kept |
| OldOrdering.MockFirebase.UpdateOrderStatus | old/src/ordering-system.tsx:25-28 | only the matching order's status changes; an unknown id is a no-op |
| OldOrdering.MockFirebase.UpdateItemAvailability | old/src/ordering-system.tsx:29-32 | only the matching item's availability changes; an unknown id is a no-op |
| OldOrdering.TakeOff | old/src/ordering-system.tsx:95-99 | one entry leaves the menu as long as it was |
| OldOrdering.MenuAfter | old/src/ordering-system.tsx:94-100 | the whole cart leaves the menu as long as it was |
| OldOrdering.MenuAfterKeepsItems | old/src/ordering-system.tsx:94-100 | ordering changes only availabilities |
| OldOrdering.TakeOffEffect | old/src/ordering-system.tsx:95-99 | one entry's units come off its own item and off no other |
| OldOrdering.StockDecremented | old/src/ordering-system.tsx:94-100 | each item loses exactly the units ordered, with no lower bound |
| OldOrdering.StockCanGoNegative | old/src/ordering-system.tsx:94-100 | two units ordered of an item with one left leave −1, unlike the clamped rule of the newer till |
| OldOrdering.OrderingApp.AddToCart | old/src/ordering-system.tsx:51-64 | the same add rule as the newer till |
| OldOrdering.OrderingApp.RemoveFromCart | old/src/ordering-system.tsx:66-77 | the same remove rule as the newer till |
| OldOrdering.OrderingApp.ProcessOrder | old/src/ordering-system.tsx:83-108 | an empty cart does nothing; otherwise the stock is decremented, one pending order numbered count + 1 is stored and the cart emptied; numbering stays 1, 2, 3, … |
| OldOrdering.OrderingApp.TakeOffStock | old/src/ordering-system.tsx:95-99 | one loop pass takes the entry's units off its item |
| OldOrdering.OrderingApp.CompleteOrder | old/src/ordering-system.tsx:130-133 | the order's status becomes "completed"; an unknown id is a no-op |
| OldOrdering.KitchenOrders | old/src/ordering-system.tsx:242-247 | exactly the pending orders with an item on the line |
| OldOrdering.CompletedLeavesKitchen | old/src/ordering-system.tsx:130-133 | a completed order is on no kitchen screen |
| Common.NatText | print-server/src/print-server.js:194 | decimal digits with no leading zero |
| Common.Split | print-station/src/configManager.js:140 | `split('.')`: at least one part, no part contains the separator |

Some functions that model a source function carry no `ensures` of their
own. The lemma rows above specify them:

- `Cart.AddToCart`: `Cart.AddUnavailable`, `Cart.AddShape`, `Cart.AddCounts` and `Cart.AddThenRemove`.
- `Cart.RemoveFromCart`: `Cart.RemoveCounts`, `Cart.RemoveUnknown` and `Cart.AddThenRemove`.
- `Cart.Total`: `Cart.AddRaisesTotal`.
- `PrintServer.TextContent`: `PrintServer.TextContentDecode`.
- `PrintServer.ReceiptContent`: `PrintServer.ReceiptContentDefined`, `PrintServer.ReceiptContentCuts` and `PrintServer.ReceiptContentFrame`.
- `ReceiptLayout.PaddedPriceLine`: `ReceiptLayout.PaddedPriceLineLayout`.
- `ReceiptLayout.SeparatorLine`: `ReceiptLayout.SeparatorLineLayout`.
- `ReceiptLayout.ReceiptHeader`: `ReceiptLayout.ReceiptHeaderClean`.
- `ReceiptLayout.TotalBlock`: `ReceiptLayout.TotalBlockDecode`.
- `ReceiptLayout.ReceiptFooter`: `ReceiptLayout.ReceiptFooterLayout`.
- `StationReceipt.LineCut`: `StationReceipt.LineCutLayout`.
- `StationReceipt.StationReceiptBytes`: `StationReceipt.StationReceiptCuts`, `StationReceipt.StationReceiptStartsWithInit` and the method `StationReceipt.GenerateReceiptCommands`.
- `WebReceipt.OrderReceipt`: `WebReceipt.OrderReceiptCuts` and `WebReceipt.OrderReceiptFrame`.
- `WebReceipt.SimpleText`: `WebReceipt.SimpleTextDecode`.
- `ConfigManager.GetPath`: `ConfigManager.GetKeys`, `ConfigManager.SetThenGet` and `ConfigManager.SetKeepsOthers`.
- `OldOrdering.OrderIndex` and `OldOrdering.ItemIndex`: `OldOrdering.FirstIndex`, of which they are the instances for order ids and item ids.

## Left out

- Money: prices are integers. `formatPrice`'s `toFixed` and its ">99 means cents" rule, and the server's `euros`, are the parameter `euros: int -> Text`. `getTotalPrice` is the integer sum `Cart.Total`.
- Text is printable ASCII plus '\n', so one character is one byte. UTF-8 for other characters is not modelled.
- A `/print-raw` content array holds numbers. Array elements that are not numbers (`Buffer.from` turns them into 0) are not modelled.
- Dates, `Date.now()`, `toLocaleString` and ISO timestamps are parameters.
- Timers are events. The `setTimeout` cleanup of job files is not modelled. The `setInterval` heartbeat is the method `OnHeartbeat`, and the retry timer is `OnRetryTimer`.
- Child processes, files and the Firestore SDK are parameters. `exec` outcomes, file writes, `onSnapshot`, `setDoc`, `getDoc` and `updateDoc` become a result parameter or a map in the model. The print server's write of a buffer or string to its temporary directory is assumed to succeed; only the refusal of other values is modelled.
- `process.exit`, signal handlers and logging are not modelled.
- Concurrency is not modelled. Overlapping snapshot callbacks and the non-atomic read-then-increment of `attempts` and the stats are run as one sequential step.
- React rendering, alerts, the till's `printReceipt` window and the old app's printed text are not modelled.
- Whole files not modelled: `firebaseService.js`, `printService.js`, both `firebase/config.js`, `scripts/build.js`, `quickPrintTest.js`, and the React components.
- I/O helpers not modelled: `commandsToBuffer`/`saveCommandsToFile`, `testPrint`/`createTestContent`, `generateTestReceipt`, the server's `generateTestContent`, `getPlatformInfo`, `save`/`createDefaultConfig`, and `getOrderStats`.
- The contents of the callbacks given to `monitorOrderPrintStatus`, `monitorOrders` and `monitorPrintStations` are not modelled. The `monitorOrders` key is taken as the given JSON text of the filters.
- Import mismatches are not reproduced. `print-station.js` imports `./config-manager.js` and `./print-manager.js`, and `receiptGenerator.js` imports `./escposCommands.js`. The model links the files that exist.
- The print station calls `generateOrderReceipt`, which its own generator does not define. The station's compiler is therefore a parameter: the print outcome passed to `ProcessOrder`.
- `generateReceiptContent` in the print server calls `HELPERS.priceeLine`, which does not exist. The model uses `priceLine`, the evidently intended helper.
- Station ids are strings throughout. The numeric `station` the till writes and the string id the station filters on are not reconciled.
- Old mock app: menu ids are strings. The shared menu objects are one list in the store, so the till's `menu` is the store's menu.
- App.Till.ProcessOrder: `createOrder` is a function parameter whose answer is an order id, and an empty id counts as failure.
- ConfigManager.Manager.Set: a set whose walk passes through an array (`set("a.0.x", v)` with `a` an array) keeps the old tree in the model, while the source writes into the array. A walk that throws (`key in null`) leaves the tree unchanged in both.
- ConfigManager.Manager.Set: the model's configuration is a value, so it shares nothing with the defaults. In the source, the merge starts from `{ ...defaultConfig }` and the fallback load is `{ ...this.defaultConfig }`, so a section the file does not mention is the defaults' own object; `getAll()` copies only the top level. A `set` into such a section also changes the defaults: after `set("server.port", 9000)` with a file that has no `server` section, a second `loadConfig()` reads 9000 where the model (`ConfigManager.Manager.LoadConfig`) reads 3001. No caller sets or reloads.
- ConfigManager: JSON numbers are integers.
- ConfigManager.StringToNumber: number text is converted exactly, without rounding to the nearest double. So "0.99999999999999999", which JavaScript reads as 1, is below 1 in the model, and "65535.00000000000001" is above 65535.
- EscPos.TextStyle: a style named like an `Object.prototype` member ("toString", "constructor", "__proto__") gets no prefix in the model. In the source, spreading the inherited member throws. No caller passes such a name.
- EscPos.AlignBytes: the same holds for alignment names.
- ConfigManager.GetPath: a key named like an `Object.prototype` member, or on an array `length` or an `Array.prototype` name (`push`, `map`, …), reads as absent in the model. In the source, `key in value` finds the inherited member or the length and `get` returns it (`get("a.length")` is the array's length). No caller uses such a key.
- ReceiptLayout.ResolveConfig: widths are natural numbers. A negative configured width, for which `'='.repeat(width)` throws a RangeError, cannot be represented; the station uses its defaults and the server reads a configured width. PrintServer.ReceiptContent takes a `nat` width for the same reason.
- ReceiptLayout.Quantity: item fields are always present. A missing `quantity`/`qty` prints 0 in the model. The source prints "undefined" and a NaN price.
