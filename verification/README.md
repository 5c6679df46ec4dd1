# Verified models of eight components

Each component below is modelled in Dafny, in the form its source has, and proved correct for all inputs, runs or
interleavings. They share two helpers, `Wrappers.Option` and `Seqs`; otherwise the components are independent, except
that what the JSON printer prints is shown to be accepted by the JSON checker.

`dafny verify dfyconfig.toml` checks everything.

**The record store** (`apue/apue.2e/db/db.c`). `DbText` is the codec of numbers, fields and index records; `DbLayout`
the bytes of the index file as a concatenation of records; `DbChains` the chains and the free list threaded through it;
`DbContents` the map that records and data bytes stand for; `DbStore` the `DB` object whose methods overwrite file
bytes, buffers and offsets as the program does; `DbRuns` sequences of calls. The ghost state says which records and
lists the bytes spell, and which map callers see; `Valid()` ties the three views together. A call that reaches
`err_dump` or `err_quit` ends the run, and `Store` says exactly when. `DbProtocol*` is the same program with its record
locks as a state machine of any number of processes: each read, write or lock request is one atomic step, and all
statements hold in every interleaving. `DbCalls` says what a call means on a map; `DbRuns` shows it of one process at a
time, and `DbProtocolData` of all processes together, where the calls take effect in the order in which they let go of
their chains. `DbProtocolEnds` says that calls come to an end, and `DbProtocolSpace` when the files grow.

**The JSON checker** (`json/JSON_checker.c`). `JsonTables` holds the program's two tables and proves a readable
description of them entry by entry. `JsonChecker` is the object with its bounded stack. `JsonGrammar` has two languages
as derivation trees: that of RFC 4627 section 2, and that of the program. They differ in three ways, which the program's
documentation does not mention: the tables make the digits after a point optional, do not let `0` be followed directly
by an exponent, and put no upper bound on a character in a string. `RfcAgreement` shows that there is no fourth. By
`JsonUnambiguous` a text has at most one derivation, whichever language it is of. `new_JSON_checker(depth)` spends one
slot on its own mode, so nesting is bounded by `depth - 1`; with depth 1 nothing at all is accepted.

**The JSON printer** (`html/njs/json2.js`). `JsonPrinter` has `quote`, and `str` and `stringify` as methods that save
and restore the shared gap; `JsonValues` says what the normalised value of a JavaScript value is, by taking JSON values
as JavaScript values; `JsonRoundTrip` joins the printer to the grammar and the checker, and `JsonLayout` is about white
space. A number is given by the numeral it prints as: digits after a point, and no exponent after a bare zero, as
JavaScript prints numbers.

**The module loader** (`html/njs/require.js`). A context keeps a record per module name, and the methods are those of
the source: enabling wires dependencies one at a time, defining a module tells its listeners, which may define others,
and `checkLoaded` breaks cycles. `LoaderState`, `LoaderEnabling` and `LoaderCycles` hold the invariants and what one
change keeps of them; `LoaderDemand` which modules are needed; `ModuleLoader` has the methods, `LoaderRuns` any sequence
of calls. The log records factory calls.

**Callback lists and deferreds** (`html/njs/jquery-1.7.2.js`). `CallbackLists` and `CallbackWorlds` are about one list
and about several; `Callbacks` has the methods, with re-entrancy: every function that is called takes the next of a
finite list of scripts and performs its actions, on any list, before it returns. Every run that ends is the run of some
scripts. Entries have numbers of their own, in the order of addition, so that one function added twice is two entries.
`CallbackEntries` says what may become of entries while given actions are performed, and `CallbackRuns` draws the
conclusions. A deferred is three such lists with its own callbacks in front. `Deferreds` says what deferreds promise,
and has `when`, whose promises and whose own deferred are such objects.

**Two tree algorithms** of the same file. `AncestorSearch` is `dirNodeCheck`, with marks on nodes of a forest;
`DocumentOrder` the comparison of nodes that walks `parentNode` and `nextSibling`. Nodes of one tree are named by the
way to them from the root.

**The semaphore sets** (`apue/apue.2e/lib/semaph.c`). `SemProtocol` has the kernel's `semop`, `SETVAL` and undo on exit,
the program's operation arrays, and its functions as sequences of atomic steps, including the retry after `EINVAL`.
`SemTheorems` is about all interleavings with fewer than 10000 handles at any time. That `sem_open` and `sem_close` are
safe together is false of the code, and so is the counting of 10000 handles: `SemAttachment` and `SemCounter` show a run
for each and say exactly in which runs the code is right, and what callers can do to stay within them. `SemValues` is
about the value of the semaphore itself, `SemCalls` about how the calls end.

**The spooler** (`apue/apue.2e/ipp/printd.c`). `SpoolList` is the doubly linked list of jobs; `SpoolProtocol` the
clients and the printer thread with their mutex and condition variable; `SpoolRuns` lets them work on the linked list.

In the table, each component's main results come with the operations they are about. A method that changes an object
states its new state as a function of the old one; the lemmas named beside it say what that function guarantees.

## Model

| member | source | states |
|---|---|---|
| `JsonTables.AsciiTable` | json/JSON_checker.c:76-101 | the 128 entries of the class table are those the description by cases gives |
| `JsonTables.TransitionTable` | json/JSON_checker.c:142-181 | all 30 rows of 31 entries of the transition table are those the description by cases gives |
| `JsonChecker.Checker.Push` | json/JSON_checker.c:207-218 | the mode goes on top, and the push fails exactly when the stack is full |
| `JsonChecker.Checker.Pop` | json/JSON_checker.c:222-233 | the top goes, and the pop fails exactly when it is not the mode asked for |
| `JsonChecker.Checker.Perform` | json/JSON_checker.c:289-384 | the switch over the actions changes state, top and stack exactly as the action on values does, and refuses exactly when that does |
| `JsonChecker.Checker.Char` | json/JSON_checker.c:262-385 | one character changes the object exactly as one step changes the configuration; a refusal ends the object |
| `JsonChecker.Checker.Done` | json/JSON_checker.c:389-400 | the verdict is yes exactly in the configuration OK with only DONE on the stack |
| `JsonCompleteness.Complete` | json/JSON_checker.c:262-400 | every document of the grammar nested at most depth - 1 deep is accepted |
| `JsonSoundness.Sound` | json/JSON_checker.c:262-400 | every accepted text is a document of the grammar nested at most depth - 1 deep |
| `JsonTheorems.Recognises` | json/JSON_checker.c:142-400 | for every integer sequence and every depth at least 1: accepted if and only if in the grammar with nesting at most depth - 1 |
| `JsonTheorems.CheckText` | json/JSON_checker.c:237-400 | the same for the object driven character by character: create, feed, ask for the verdict |
| `JsonTheorems.StackAlways` | json/JSON_checker.c:298-382 | in every reachable configuration the stack reads DONE, then ARRAY or OBJECT, with KEY at most on top and in accord with the state; the pops of the empty-object and colon actions and the default of the quote action are never taken |
| `JsonTheorems.EarliestRefusal` | json/JSON_checker.c:262-400 | with depth at least 2 a text is let through if and only if some continuation of it is accepted |
| `JsonTheorems.EarliestRefusalExactly` | json/JSON_checker.c:237-400 | for depth 1 this is false, so depth at least 2 is the exact condition |
| `JsonUnambiguous.Unambiguous` | json/JSON_checker.c:142-181 | a text has at most one derivation, be it one of RFC 4627 or one of the program |
| `RfcAgreement.AcceptedIsRfc` | json/JSON_checker.c:142-400 | an accepted text is a text of RFC 4627 if and only if its derivation has no decimal point without digits and no character above 0x10FFFF |
| `RfcAgreement.RfcIsAccepted` | json/JSON_checker.c:142-400 | a text of RFC 4627 is accepted at a depth if and only if it is nested at most depth - 1 deep and its derivation has no exponent right after a bare 0 |
| `RfcAgreement.PointWithoutDigits` | json/JSON_checker.c:165-167 | `[1.]` is accepted and is no text of RFC 4627 |
| `RfcAgreement.ExponentAfterZero` | json/JSON_checker.c:165-167 | `[0e1]` is a text of RFC 4627 and is refused at every depth |
| `RfcAgreement.CharacterTooLarge` | json/JSON_checker.c:275-283 | a string with the character 0x110000 is accepted and is no text of RFC 4627 |
| `JsonPrinter.QuoteIsReplaced` | html/njs/json2.js:211-224 | both branches of quote give the quoted text with every escapable character replaced |
| `JsonPrinter.UnquoteQuote` | html/njs/json2.js:211-224 | for every string of 16-bit code units what stands between the quotes is a string body of the grammar, and unquoting it gives the string back |
| `JsonPrinter.EscapeSpelled` | html/njs/json2.js:200-223 | an escaped character is spelled with the short form of the table if it has one, and otherwise with four lower-case digits in base 16 |
| `JsonPrinter.AllShown` | html/njs/json2.js:195-196 | a quoted text holds no control character and none of the listed characters above 0x7e, whatever the string |
| `JsonPrinter.OthersAsTheyAre` | html/njs/json2.js:195-196 | a string of other characters is printed as it is, in quotes |
| `JsonValues.NormalKeeps` | html/njs/json2.js:227-349 | every JSON value, taken as a JavaScript value, is its own normalised value |
| `JsonValues.NormalIsSame` | html/njs/json2.js:227-349 | a JavaScript value with nothing undefined or infinite in it is its normalised value |
| `JsonValues.ItemsOneByOne` | html/njs/json2.js:279-302 | an array keeps its length: an undefined or infinite item becomes null, every other is normalised by itself |
| `JsonValues.MembersOneByOne` | html/njs/json2.js:303-345 | an object keeps its printable members, with their names, each value normalised by itself |
| `JsonValues.PrintableAre` | html/njs/json2.js:303-345 | the printable members are all whose value is not undefined, in order |
| `JsonPrinter.Printer.Str` | html/njs/json2.js:227-349 | a string is quoted, a number is its numeral, and null, true, false and an infinite number are the words null, true, false and null; exactly an undefined value gives no text; every text is that of the normalised value at the present gap, which is restored on every return |
| `JsonPrinter.Printer.Stringify` | html/njs/json2.js:354-393 | the text is that of the normalised value at no gap with the indentation that space asks for |
| `JsonRoundTrip.TreeSpells` | html/njs/json2.js:227-349 | the printed text is the text of a derivation tree built from the value |
| `JsonRoundTrip.PrintedTree` | html/njs/json2.js:354-393 | the printed text of an array or object is a text of RFC 4627 and of the checker, and stands for the normalised value |
| `JsonRoundTrip.PrintedIsAccepted` | html/njs/json2.js:354-393 | the checker accepts the printed text of an array or object at a depth if and only if the depth is greater than the nesting |
| `JsonRoundTrip.ReadsBack` | html/njs/json2.js:354-393 | every reading of the printed text with the grammar gives the normalised value |
| `JsonRoundTrip.ReadsBackExactly` | html/njs/json2.js:354-393 | for a value with nothing undefined or infinite in it, every reading of the printed text gives that value back |
| `JsonLayout.PrintedLayout` | html/njs/json2.js:227-349 | however the printed text is read, its white space is: with an indent, a line break and the indent once for each level before every item, every member and the closing bracket of an array or object that is not empty, and one blank after each colon; with none, nothing |
| `JsonRoundTrip.IndentDoesNotMatter` | html/njs/json2.js:354-393 | texts printed with any two white-space indents read back as the same value if and only if the normalised values are the same |
| `DbText.PtrWidth` | apue/apue.2e/db/db.c:621-632 | a pointer field is exactly six characters wide if and only if the offset is at most PTR_MAX |
| `DbText.RecordSpelled` | apue/apue.2e/db/db.c:568-614 | the index record of a key as it is in the file, character by character |
| `DbText.ParseInverts` | apue/apue.2e/db/db.c:392-416 | parsing the body of an index record inverts writing it, for every key without a colon and every length in range |
| `DbText.ReadsBack` | apue/apue.2e/db/db.c:378-416 | all fields of a written index record are read back: pointer, length, key, data offset, data length |
| `DbLayout.HeadField` | apue/apue.2e/db/db.c:621-632 | a list head is at its multiple of six, and overwriting it changes that head of the spelled file and nothing else |
| `DbLayout.PtrField` | apue/apue.2e/db/db.c:621-632 | the same for the chain pointer at the front of a record |
| `DbLayout.RecField` | apue/apue.2e/db/db.c:568-614 | overwriting a record with one of the same length changes that record of the spelled file and nothing else |
| `DbStore.DB.Create` | apue/apue.2e/db/db.c:134-158 | the header of 138 null pointers and a newline spells the empty database |
| `DbStore.DB.ReadPtr` | apue/apue.2e/db/db.c:324-334 | reading a pointer field gives the pointer the state has there |
| `DbStore.DB.WritePtr` | apue/apue.2e/db/db.c:621-633 | writing one changes that pointer and nothing else, and is refused exactly beyond PTR_MAX |
| `DbStore.DB.ReadIdx` | apue/apue.2e/db/db.c:344-418 | reading at the offset of a record, or at the current offset, fills the handle with the fields of that record; end of file exactly after the last |
| `DbStore.DB.ReadDat` | apue/apue.2e/db/db.c:425-435 | the data are the bytes of the extent without the newline |
| `DbStore.DB.WriteDat` | apue/apue.2e/db/db.c:532-560 | the data and a newline are written over exactly their length, or appended, and offset and length remembered |
| `DbStore.DB.WriteIdx` | apue/apue.2e/db/db.c:568-614 | the index record is written over one of the same length, or appended; refused exactly when the pointer is beyond PTR_MAX or the body too long |
| `DbStore.DB.DbHash` | apue/apue.2e/db/db.c:307-316 | the loop computes the weighted sum in 64-bit unsigned arithmetic modulo the table size |
| `DbContents.WeightedFront` | apue/apue.2e/db/db.c:307-316 | a character put in front of a key adds itself once and each other character once more to the sum |
| `DbStore.DB.FindAndLock` | apue/apue.2e/db/db.c:260-301 | the walk finds the record of a key on its chain and the pointer to it, or the whole chain lacks the key |
| `DbStore.DB.DoDelete` | apue/apue.2e/db/db.c:464-525 | the record found is moved to the front of the free list, blank, in place: only its key leaves the map, and neither file changes length |
| `DbStore.DB.Delete` | apue/apue.2e/db/db.c:441-456 | 0 and the key is gone, or -1 and nothing has changed |
| `DbStore.DB.Fetch` | apue/apue.2e/db/db.c:234-253 | the data of the key in the map, or nothing |
| `DbStore.DB.FindFree` | apue/apue.2e/db/db.c:755-807 | the first free record whose key and data have exactly the lengths wanted is taken off the free list, or there is none |
| `DbStore.DB.AddAtEnd` | apue/apue.2e/db/db.c:677-690 | a new key is appended and put in front of its chain; refused exactly when its record is too long or its offset beyond PTR_MAX |
| `DbStore.DB.Reuse` | apue/apue.2e/db/db.c:691-700 | a free record is rewritten in place for a new key; neither file changes length |
| `DbStore.DB.Store` | apue/apue.2e/db/db.c:640-748 | return code and new map for every flag: insert of a present key gives 1, replace of an absent one -1, both changing nothing; otherwise only that key changes; the run ends exactly on a bad length, or when a new record does not fit; without a new record no file changes length |
| `DbStore.DB.Rewind` | apue/apue.2e/db/db.c:815-829 | the file offset is that of the first record |
| `DbStore.DB.NextRec` | apue/apue.2e/db/db.c:838-877 | blank records are skipped; the next other record is a live key with its data; end of file only when none is left |
| `DbStore.DB.Scan` | apue/apue.2e/db/db.c:815-877 | rewind and nextrec to the end give each live key that is not all blank exactly once, with its data, and nothing else |
| `DbRuns.Make` | apue/apue.2e/db/db.c:234-748 | each call answers and leaves the map as the map operation does |
| `DbCalls.CallsMean` | apue/apue.2e/db/db.c:640-748 | what the map operations are, code by code: 1 for an insert of a present key, -1 for a replace or delete of an absent one and for a store with another flag, 0 for success; what a store and a delete leave; other keys stay |
| `DbRuns.Replay` | apue/apue.2e/db/db.c:234-748 | every sequence of store, delete and fetch calls is answered as by a map, up to the call that ends the run, if any |
| `DbRuns.OnlyOwnCalls` | apue/apue.2e/db/db.c:640-748 | calls that do not name a key change nothing about it |
| `DbRuns.FetchGivesStored` | apue/apue.2e/db/db.c:234-748 | after a store that succeeded, and until another call names the key, a fetch gives what was stored |
| `DbProtocolTheorems.RunsKeepInv` | apue/apue.2e/db/db.c:234-877 | every interleaving of any number of processes keeps the invariant: pointers spell the lists, keys are on their own chains once, free records are blank, each process knows what its program point implies, and conflicting locks are never held together |
| `DbProtocolData.ActAsOneMap` | apue/apue.2e/db/db.c:234-748 | in every interleaving of any number of processes, from an empty database, fetch, delete and store act one at a time on one map: each answers, data included, as on the map made by the calls that finished before it; and the files show the map for every key that no process is altering |
| `DbProtocolTheorems.OneOwner` | apue/apue.2e/db/db.c:464-525 | a record is on exactly one list, once, or in the hand of exactly one process |
| `DbProtocolTheorems.PointersSpell` | apue/apue.2e/db/db.c:324-334 | following the pointers of the file spells the list, whenever no process is in the middle of bypassing a record of it |
| `DbProtocolTheorems.Isolation` | apue/apue.2e/db/db.c:277-283 | while a process holds the lock of a list no other process changes the list, its pointers or its records |
| `DbProtocolTheorems.ChangedUnderLock` | apue/apue.2e/db/db.c:483-524 | a chain, its head or one of its records changes only under its own write lock, and the same for the free list |
| `DbProtocolTheorems.LockOrder` | apue/apue.2e/db/db.c:763-805 | a chain is locked first, and the free list, the data file or the append region only after it |
| `DbProtocolTheorems.NoDeadlock` | apue/apue.2e/db/db.c:592-613 | in every reachable state a process can step, or one that holds a lock in its way can, or one in the way of that one can |
| `DbProtocolTheorems.WaitsAreShort` | apue/apue.2e/db/db.c:592-613 | whatever is in the way of a process that is itself in the way of another can step, so processes never wait for each other in a circle |
| `DbProtocolTheorems.NextRecSeesWhole` | apue/apue.2e/db/db.c:848-875 | a sequential reader that has seen a key never looks at a record in the middle of its deletion |
| `DbProtocolData.NextRecData` | apue/apue.2e/db/db.c:848-875 | the data that a sequential reader is about to read are those that the map has for the key, or those of a store in progress that will succeed |
| `DbProtocolTheorems.FetchExact` | apue/apue.2e/db/db.c:234-253 | a search that ends finds a record on a chain under the key, or no chain has one at that moment |
| `DbProtocolEnds.ReadersShare` | apue/apue.2e/db/db.c:234-283 | fetches and sequential readers never wait for each other, only for a process that stores or deletes |
| `DbProtocolEnds.CallEnds` | apue/apue.2e/db/db.c:234-748 | from every reachable state: a call that nobody keeps waiting comes to its end, and its answer is the one that the map has for it |
| `DbProtocolEnds.NextRecFrom` | apue/apue.2e/db/db.c:838-877 | a sequential reader that nobody keeps waiting comes to the first record from its place on that is not blank, passing over none |
| `DbProtocolSpace.SpaceIsReused` | apue/apue.2e/db/db.c:677-807 | in every interleaving: a store takes a record off the free list only for a key that the map lacks, and the first there of exactly the lengths it needs; the files grow only by a store of such a key when no free record fits, or by one that replaces data |
| `LoaderRuns.Replay` | html/njs/require.js:1146-1396 | any sequence of define and require calls and checks: each factory has run exactly once if its module is defined and never otherwise; all that a defined module depends on, at any distance, is defined; only factories have run of modules that some require call reaches through dependencies; a module has the dependencies of its first define; without cycles factories ran in dependency order, whatever checks were made; and when nothing is still loading every require call has been served |
| `ModuleLoader.Context.DefineDep` | html/njs/require.js:770-778 | the dependency is matched and counted once, however often the callback comes |
| `ModuleLoader.Context.Check` | html/njs/require.js:818-910 | the module is fetched, or defined if it waits for nothing, with the listeners told; no module that could be defined is left undefined, and factories run in order as long as no cycle was broken |
| `ModuleLoader.Context.Emit` | html/njs/require.js:1133-1143 | every listener has its dependency matched |
| `ModuleLoader.Context.TakeUp` | html/njs/require.js:1066-1096 | one dependency is counted, and matched at once if it is defined, or listened to; the dependency may then be enabled |
| `ModuleLoader.Context.EnableDep` | html/njs/require.js:1066-1109 | the same, and the dependency is enabled if it was not; all invariants hold again |
| `ModuleLoader.Context.Enable` | html/njs/require.js:1058-1123 | all dependencies are wired and enabled, whatever is defined on the way; then the module is fetched, waits or is defined |
| `ModuleLoader.Context.Init` | html/njs/require.js:720-768 | the first define counts and later ones do nothing; all invariants hold again |
| `ModuleLoader.Context.Define` | html/njs/require.js:1146-1151 | the define of a script may arrive at any time: the dependencies of the first one are those of the module, and a module that nobody needs is not enabled by it, nor is any other |
| `ModuleLoader.Context.Require` | html/njs/require.js:1381-1396 | a require call enables what it needs at once, and nothing that it does not reach through dependencies |
| `ModuleLoader.Context.BreakCycle` | html/njs/require.js:588-614 | ends on every graph; whatever it presented too early is defined before it is over |
| `ModuleLoader.Context.CheckLoaded` | html/njs/require.js:616-701 | still loading exactly if an enabled module has not arrived; otherwise every require call is defined afterwards; nothing happens if all enabled modules are defined |
| `LoaderCycles.BreakDone` | html/njs/require.js:588-614 | after a break no module is matched to one that is not defined |
| `LoaderCycles.DefinedReach` | html/njs/require.js:588-614 | everything a defined module depends on, at any distance, is defined |
| `LoaderCycles.FactoriesRunOnce` | html/njs/require.js:840-896 | a factory has run exactly once if its module is defined, and not at all otherwise |
| `LoaderCycles.AcyclicDefined` | html/njs/require.js:493-505 | without cycles modules that have arrived with all they depend on are defined already, so there is nothing to break |
| `Callbacks.Lists.Deferred` | html/njs/jquery-1.7.2.js:1222-1302 | the three lists of a new deferred, with its own callbacks in front, satisfy all invariants |
| `Callbacks.Lists.PushEach` | html/njs/jquery-1.7.2.js:1045-1063 | each function goes to the end of the list, unless the list has the flag unique and the function is on it |
| `CallbackWorlds.FreshOnes` | html/njs/jquery-1.7.2.js:1045-1063 | these are all functions given, or, with the flag unique, such that each one given is on the list afterwards |
| `CallbackWorlds.FreshInOrder` | html/njs/jquery-1.7.2.js:1045-1063 | they come in the order given, and with the flag unique none was on the list before |
| `Callbacks.Lists.Add` | html/njs/jquery-1.7.2.js:1097-1114 | the list with the functions at its end, in the running firing if there is one, and a firing of its own with the kept arguments if not, which skips exactly the entries that were there; in every case each function gets a new entry, in order; no entry of any list goes unless a callback takes it off; a disabled list is left alone |
| `Callbacks.Lists.Remove` | html/njs/jquery-1.7.2.js:1116-1145 | the list without the function, all others as often as before and in order, with firing indices adjusted; no other entry of any list goes |
| `Callbacks.Lists.Disable` | html/njs/jquery-1.7.2.js:1165-1168 | list, stack and memory are gone |
| `Callbacks.Lists.Lock` | html/njs/jquery-1.7.2.js:1174-1180 | the stack is gone, and the list is disabled if it keeps no arguments |
| `Callbacks.Lists.FireWith` | html/njs/jquery-1.7.2.js:1186-1197 | an accepted firing is run now, from the first entry on and skipping none, or once the running one is over: it calls each entry of the list, and each that comes meanwhile, unless a callback takes it off, and no others; no entry of any list goes unless a callback takes it off; a firing that is not accepted changes nothing |
| `Callbacks.Lists.FireLoop` | html/njs/jquery-1.7.2.js:1066-1093 | whatever the callbacks do to any list, firings in progress elsewhere stay where they are, and this firing is fair, starts where it should, and calls each later entry, and each that comes meanwhile, that no callback takes off; entries leave lists only by the actions of callbacks |
| `Callbacks.Lists.Perform` | html/njs/jquery-1.7.2.js:1097-1197 | any sequence of actions of a callback keeps all invariants; the functions it adds get entries in order, the firings it asks for are accepted in order on every list that may fire again and is not disabled or locked, and only the entries go that it, or callbacks that run meanwhile, take off |
| `CallbackRuns.SurvivorsRunOnce` | html/njs/jquery-1.7.2.js:1066-1145 | in every firing that is over each entry still on the list was called exactly once, all with the same arguments, no entry twice, and all in the order in which they had been added; only a firing due to a late addition skips entries |
| `CallbackRuns.SparedRunOnce` | html/njs/jquery-1.7.2.js:1066-1145 | in every firing, whatever callbacks do, each entry on the list from its start on, and each that comes meanwhile, is called exactly once unless a callback takes it off; no other entry is called |
| `CallbackRuns.EveryEntryCalled` | html/njs/jquery-1.7.2.js:1066-1197 | lists are made and used in any way, and then one that may fire again is fired: if nobody disables or locks it, every entry ever added to it, by anyone, has been called unless a script removes its function; and if nothing is removed the firing calls all that the caller had added, in order |
| `CallbackRuns.GoneForGood` | html/njs/jquery-1.7.2.js:1116-1145 | an entry that has been taken off its list never comes back and is never called again, in a firing under way either |
| `CallbackRuns.OnlyAddedCalled` | html/njs/jquery-1.7.2.js:1066-1081 | only entries that have been added to a list are called in its firings |
| `CallbackRuns.LateOnesRun` | html/njs/jquery-1.7.2.js:1097-1114 | when add makes a list fire again, each added entry is called in that firing exactly once, unless a callback takes it off before its turn; and if no callback acts, the added entries are called and no others, in order |
| `CallbackRuns.FirstInFirstOut` | html/njs/jquery-1.7.2.js:1082-1093 | on every list that is not locked or disabled: the firings asked for that have run are the first of those asked for, in order and with their arguments, and all of them once the list is not firing; firingLength is the length of the list while firing; a list with the flag once is fired at most once, and one with the flag memory keeps the arguments of the last firing |
| `CallbackRuns.FiresInOrder` | html/njs/jquery-1.7.2.js:1082-1197 | lists are made and used in any way: on each list that may fire again and that nobody disables or locks, every firing asked for has been carried out, in order and with its arguments, those that the script itself asks for included |
| `Deferreds.SettleInTheMiddle` | html/njs/jquery-1.7.2.js:1222-1302 | for every use of a new deferred before and after a call that resolves or rejects it: if it was pending before the call, the call settled it; at the end every callback ever added to the settling list has run exactly once, in order, with the arguments of the settlement, and none of the other list; and the functions that the caller adds to the settling list before and after are among those called, in order |
| `Deferreds.SettleThen` | html/njs/jquery-1.7.2.js:1222-1302 | the same from any deferred on which nothing is being fired: what settled it before the call stands, or else the call settles it |
| `Deferreds.CallbacksRunOnce` | html/njs/jquery-1.7.2.js:1222-1302 | every callback of the settling list is called exactly once, in order, with the arguments of the settlement, whether added before or after; those of the other list never; the progress list can be fired exactly while the deferred is pending |
| `Deferreds.Settle` | html/njs/jquery-1.7.2.js:1292-1302 | the first resolve or reject settles a pending deferred, as resolved or as rejected; later ones change nothing |
| `Deferreds.When.constructor` | html/njs/jquery-1.7.2.js:1314-1349 | after taking up plain values and promises, settled or not, the deferred is what the fates of the arguments make of it; of several rejections the first argument rejected gives the arguments |
| `Deferreds.When.SettlePromise` | html/njs/jquery-1.7.2.js:1325-1342 | whenever a promise among the arguments is resolved or rejected: the deferred is resolved exactly if all arguments are, with value i in slot i, and rejected by the first rejection, with its arguments; earlier rejections stand |
| `Deferreds.When.RunCallbacks` | html/njs/jquery-1.7.2.js:1325-1342 | the callbacks of when run in any order, as when a callback of one argument settles another: the deferred is resolved exactly if all arguments are, or rejected by the first rejection in this order |
| `Deferreds.When.Resolve` | html/njs/jquery-1.7.2.js:1325-1332 | several arguments go into their slot as an array of all, one as it is, none as undefined; the deferred resolves exactly with the last one |
| `Deferreds.When.AllDone` | html/njs/jquery-1.7.2.js:1325-1332 | when all arguments are done the deferred is resolved with one value for each, in order: all the arguments of its settlement as an array, the one it had, or undefined |
| `Deferreds.SlotTells` | html/njs/jquery-1.7.2.js:1325-1332 | the arguments of a settlement can be told from the slot, but for one undefined argument from none, and an array from its elements |
| `Deferreds.When.StillOpen` | html/njs/jquery-1.7.2.js:1325-1342 | while an argument is open or rejected the deferred is open as long as none is rejected, and else rejected by the first rejection |
| `Deferreds.When.Reject` | html/njs/jquery-1.7.2.js:1342 | the first rejection rejects the deferred, with its arguments |
| `AncestorSearch.FirstIsNearest` | html/njs/jquery-1.7.2.js:5260-5291 | the search without marks finds the nearest node with the name, and nothing exactly if there is none |
| `AncestorSearch.DirNodeCheck` | html/njs/jquery-1.7.2.js:5260-5291 | every entry that was a node becomes the nearest node of the name at least one step away from it, or nothing if there is none; false entries stay |
| `AncestorSearch.Walk` | html/njs/jquery-1.7.2.js:5268-5287 | one walk, stopping at a mark, finds what the search without marks finds, and leaves marks that can be relied on |
| `DocumentOrder.DocumentIsPreorder` | html/njs/jquery-1.7.2.js:4914-4972 | the preorder listing has each node exactly once, and is sorted by the order on paths |
| `DocumentOrder.OrderLaws` | html/njs/jquery-1.7.2.js:4914-4972 | the comparison is antisymmetric, transitive and total, and 0 only for the same node |
| `DocumentOrder.OrderIsDocumentOrder` | html/njs/jquery-1.7.2.js:4914-4972 | the comparison of two nodes is that of their places in the preorder listing |
| `DocumentOrder.SiblingCheck` | html/njs/jquery-1.7.2.js:4974-4990 | for siblings the walk along nextSibling decides the order; ret for the same node |
| `DocumentOrder.Ancestors` | html/njs/jquery-1.7.2.js:4946-4956 | the list of ancestors, the root first |
| `DocumentOrder.SortOrder` | html/njs/jquery-1.7.2.js:4914-4972 | the comparison by parentNode and nextSibling is document order, and hasDuplicate is set exactly for the same node |
| `SemTheorems.LockIsHolders` | apue/apue.2e/lib/semaph.c:49-75 | in every interleaving the lock member is 0 or 1 and is the number of lock holders |
| `SemCounter.CounterExactly` | apue/apue.2e/lib/semaph.c:89-253 | in every interleaving: counter and open handles agree at all times if and only if there are never BIGCOUNT handles |
| `SemCounter.CounterStartsAfresh` | apue/apue.2e/lib/semaph.c:138-153 | a run with BIGCOUNT handles: the counter is 0, and one more sem_create sets it anew, so that it no longer counts the handles |
| `SemTheorems.HolderGoesOn` | apue/apue.2e/lib/semaph.c:124-160 | the holder of the lock is never blocked and never fails |
| `SemValues.ValueIsSum` | apue/apue.2e/lib/semaph.c:138-153 | in every interleaving in which no process has gone: member 0 is the initial value of the sem_create that initialised the set plus the amounts of all calls of sem_op finished on it |
| `SemValues.ValueIsBooked` | apue/apue.2e/lib/semaph.c:49-82 | the same in every interleaving, exits included: what a process that is gone had added or taken is given back, but never below 0 |
| `SemValues.AdjustWaits` | apue/apue.2e/lib/semaph.c:284-291 | a sem_op waits exactly if the value would become negative, and else adds its amount |
| `SemValues.LastCloseRemoves` | apue/apue.2e/lib/semaph.c:222-253 | in every interleaving: a sem_close removes the set in its last step if and only if no handle is left |
| `SemCalls.OnlyWaysOut` | apue/apue.2e/lib/semaph.c:89-291 | in every interleaving in which no sem_open slips in, a process is gone only by its own exit, because the set was removed while it waited in sem_create, or because its sem_open had found a set that was then removed |
| `SemCalls.CallsReturn` | apue/apue.2e/lib/semaph.c:89-197 | sem_create returns only with a new handle to the set that is there, and starts again when the set it found is gone; sem_open returns without a handle only if there is no set |
| `SemAttachment.LostExactly` | apue/apue.2e/lib/semaph.c:174-253 | in every interleaving of sem_create, sem_open, sem_close, sem_op and exits: no handle is ever to a set that is gone, nor can the next step of a process make one so, if and only if no sem_open takes its handle while a sem_close stands between its reading of the counter and sem_rm |
| `SemAttachment.HeldIsSafe` | apue/apue.2e/lib/semaph.c:174-197 | safe use: sem_open while somebody keeps a handle |
| `SemAttachment.CreateOnlyIsSafe` | apue/apue.2e/lib/semaph.c:89-163 | safe use: sem_create only |
| `SemAttachment.RemovedOnlyUnused` | apue/apue.2e/lib/semaph.c:222-253 | if no sem_open slips in, the set is removed only when no handle is open, and sem_close and sem_op always find their set |
| `SemAttachment.OpenLosesItsSet` | apue/apue.2e/lib/semaph.c:174-253 | a run with sem_open in which the set is removed under a handle |
| `SpoolList.Spool.AddJob` | apue/apue.2e/ipp/printd.c:276-296 | the job goes to the end, with all links right |
| `SpoolList.Spool.ReplaceJob` | apue/apue.2e/ipp/printd.c:302-313 | the job goes back to the front, with all links right |
| `SpoolList.Spool.RemoveJob` | apue/apue.2e/ipp/printd.c:321-331 | the job at any place is taken out, with all links right |
| `SpoolProtocol.NothingLost` | apue/apue.2e/ipp/printd.c:717-832 | in every run the jobs that clients added, in order, are those that were printed when they were said to be finished, the one in hand, and those pending; nothing but that gets a job out of the spool |
| `SpoolProtocol.NoLostWakeup` | apue/apue.2e/ipp/printd.c:276-296 | when the printer thread sleeps while jobs are pending, a client is about to signal, and at most two steps of that client wake it |
| `SpoolProtocol.ComesBack` | apue/apue.2e/ipp/printd.c:825-832 | a deferred job is at the front of the list again three steps later, a finished one is not |
| `SpoolProtocol.FirstIsPrinted` | apue/apue.2e/ipp/printd.c:683-694 | the printer thread, when the lock is free, takes the first job to print it, or sleeps if there is none, woken or not |
| `SpoolProtocol.JobIsAdded` | apue/apue.2e/ipp/printd.c:276-296 | a client, when the lock is free, puts its job at the end and wakes the printer thread if it sleeps |
| `SpoolProtocol.LockComesFree` | apue/apue.2e/ipp/printd.c:683-694 | in every run whoever has the lock lets it go within three steps of its own |
| `SpoolProtocol.ChangedUnderLock` | apue/apue.2e/ipp/printd.c:683-694 | the list changes only in the hands of the thread that has the mutex |
| `SpoolRuns.Serve` | apue/apue.2e/ipp/printd.c:276-331 | the same with the linked list itself: in every run the jobs that clients added are those finished, the one in hand, and those reached from jobhead, in order |

## Left out

- DbStore.DB.Fetch: takes no locks; locking is in `DbProtocol`, where a data extent is a whole string and an offset a
  record number, without the bytes of `DbLayout`.
- DbStore.DB.FindAndLock: takes no lock in this object; the chain lock is a step of `DbProtocol`.
- DbStore.DB.Create: the header is written to an empty file; `open`, `stat`, `umask` and the truncation of an old file
  are not modelled.
- DbStore.DB.WriteIdx: the `sprintf` from the index buffer to itself during a delete is a copy of the blank key; and a
  body of 1026 characters or more overruns the index buffer in the program before its length is tested (`db.c:582`),
  while here the call is refused.
- DbStore.DB.Store: keys have no colon and are not empty; with a key so long that the index record overruns its buffer
  the program's behaviour is undefined, and here the run ends; the statistics counters are not kept; a key or a datum is
  a string without a null character.
- DbStore.DB.Scan: no other call comes in between, and keys that are all blank are not listed, as in the program.
- DbProtocolTheorems.RunsKeepInv: byte layout is in `DbStore`; offsets do not run out, and an error of a call of the
  system ends nothing.
- DbProtocolTheorems.NoDeadlock: locks are granted at once when they can be; signals and the lock calls' error returns
  are not modelled.
- DbProtocolTheorems.FetchExact: says which record is found; what its data are is in `DbProtocolData.ActAsOneMap`.
- DbProtocolData.NextRecData: sequential reads are no calls of `DbProtocolData.ActAsOneMap`, as a reader may get what a
  store in progress has written; and the bytes of one extent are read and written in one step.
- JsonChecker.Checker.Char: an object that has refused is not used again, which the program's documentation asks of
  callers, as it frees the object.
- JsonPrinter.Printer.Str: no `toJSON`, no replacer, no number formatting; values are finite trees, and the order of an
  object's members is given.
- JsonPrinter.Printer.Stringify: the replacer argument, a function or an array of names, is not modelled.
- JSON.parse is not part of this model: it is a check by regular expressions and a call of `eval`. `toJSON` of dates and
  other wrappers likewise.
- ModuleLoader.Context.Check: a factory does not call back into the loader while it runs (the program defers that to the
  next tick), does not throw, and yields no value that matters here.
- ModuleLoader.Context.Emit: only the event `defined`; the event `error` is not modelled.
- ModuleLoader.Context.Enable: plugin maps and the error listeners of dependencies are not modelled.
- ModuleLoader.Context.Init: the error callback is not modelled.
- ModuleLoader.Context.Define: names are numbers below a bound chosen for the context; plugins, shims, path fallbacks,
  error listeners, timeouts and script tags are not modelled; the queue of defines is taken to be in order of arrival.
- ModuleLoader.Context.BreakCycle: a module is a value in a table of the context, not an object of its own, so aliasing
  of module objects is not captured; modules in error, which the program steps over, do not occur; and names are not
  those of properties of `Object.prototype`, which the program takes for processed from the start (`require.js:603`), so
  that a cycle through such a module is not broken.
- ModuleLoader.Context.CheckLoaded: no script fails to load in time, so no timeout, no path fallback and no error.
- Callbacks.Lists.Remove: one function at a time; `empty` and the flag `stopOnFalse` are not modelled, nor are callbacks
  that throw.
- Callbacks.Lists.Add: the arrays that may be nested in the arguments are taken as flattened.
- Callbacks.Lists.FireWith: the context object that callbacks are called on is not modelled; lists are values in a
  table, not objects of their own.
- Callbacks.Lists.FireLoop: a callback's result is not looked at, as without the flag `stopOnFalse`.
- Callbacks.Lists.Perform: the action `empty` is not one of those a callback may perform.
- Deferreds.When.constructor: the functions that `when` registers with its promises run when these are settled, but are
  no entries of their lists; progress values and calls with fewer than two arguments are not modelled, nor is `pipe`.
- Deferreds.When.SettlePromise: callbacks of a promise act on that promise only; for callbacks that settle another
  argument of the same `when`, `Deferreds.When.RunCallbacks` gives the result in the order in which the callbacks of
  `when` run, which is not always that in which the arguments were settled.
- AncestorSearch.DirNodeCheck: no node carries a mark with the number of this search beforehand, as the program draws a
  new number each time.
- DocumentOrder.SortOrder: the nodes belong to one tree, and have no `sourceIndex`.
- SemAttachment.LostExactly: there are fewer than 10000 handles at any time; direct calls of `sem_rm` and permission
  errors are left out.
- SemValues.ValueIsBooked: values have no upper bound, so that no call fails because a value or an adjustment is too
  large.
- DbProtocolEnds.CallEnds: all other processes are idle; that a process gets its turn while others run is not promised.
- SpoolProtocol.NothingLost: job numbers across restarts, the spool directory at start-up, the configuration file, the
  worker list, and all of HTTP and IPP are not modelled.
- Sockets, signals, terminals, the other examples of the repository, and the rest of jQuery: input and output, or
  nothing with a property over unbounded inputs.
