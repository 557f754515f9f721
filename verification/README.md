# Sealbox in Dafny

A model of the crypto-shredding vault Sealbox and proofs of what it promises. Values are sealed
under a key of their own, the key is wrapped by a master key or a key service, and an erase destroys
the wrapped key while the ciphertext stays. Everything interesting follows from many processes
doing this over the same tables at once.

Check it with `dafny verify dfyconfig.toml`.

## What is modelled

- `Vault.dfy` is the main model: a step machine of any number of servers, rotators, reindexers and
  starting replicas, with backups, crashes and key-service rotations, over the tables and statements
  of `Tables.dfy`. A rotation or a reindex reads a page in one step and acts on its rows in later ones, so
  its copies grow stale. The machine is total: a step that is not enabled changes nothing, so theorems
  about all sequences of actions are theorems about all interleavings. `Guarantees.dfy` states what
  every run keeps and achieves.
- `Envelope.dfy` models sealing symbolically: a wrapped key and a ciphertext are terms that open only
  under the key and the identity they were made with. `OpenMany` and the chunked `UnwrapMany` are the
  loops of the source; `Transit.dfy` has the version segment that decides whether a re-wrap changed
  anything, and `Versions.dfy` what one and what several in-place rotators do to versions.
- `Database.dfy` and `Store.dfy` are the store as objects: methods that run statement by statement and
  reassign the tables, with the other processes acting between statements. They are proved against the
  functions of `Rotation.dfy`, `Reindexing.dfy`, `Requests.dfy` and `Erasure.dfy`; `Courses.dfy` and
  `Rebuilding.dfy` hold what a whole rotation and a whole reindex keep from statement to statement.
  The others are a function from worlds to worlds; every finite schedule of actions is such a function.
- `Locking.dfy` takes the transactions apart: statements at READ COMMITTED, row locks taken by the
  first UPDATE or FOR UPDATE and held to the end, writes buffered until the commit. It shows that the
  committed states are those of the step machine, which is what lets `Vault.dfy` treat a transaction as one step.
  `Realising.dfy` shows the converse, that what the step machine does transactions can do, and
  `Latecomers.dfy` what such a transaction misses.
- `Simulation.dfy` and `ReindexSimulation.dfy` tie the two forms of a rotation and of a reindex together: what the store
  does statement by statement is a run of one more process of the step machine.
- `Refinement.dfy` compares the store with a plain map from ids to objects.
- `Luhn.dfy`, `Emails.dfy`, `Schema.dfy`, `Identity.dfy`: checksum arithmetic, spellings of numbers and addresses, agreement of what is indexed with what is
  searched, and injectivity of row identities and hash inputs.
- `Api.dfy` and `Walking.dfy`: the batch reveal, the search handler and the walk over its pages.

## Assumptions

- Drawn ids, object keys and index-key candidates are fresh; ids are not empty. HMAC is one-to-one.
- Wrappers with one id are one wrapper, and a box of a wrapper opens under its id only.
- Postgres gives READ COMMITTED: a statement sees what is committed when it starts and its own
  writes, an UPDATE or FOR UPDATE waits for the row lock and looks at the row again, an aborted transaction has no effect.
- Ids compare byte by byte, which for ids of the form the store draws is the order of any collation of digits and lower-case letters.
- A rotation or a walk ends once the other processes have stopped; among endless puts neither needs to.

## Where code, comments and expectations differ

- The comment at internal/store/store.go:43-46 says that NUL separators keep `a` + `b\x00c` apart from
  `a\x00b` + `c`. They do not (`SeparatorExampleCollides`); names without NUL do, and only they (`AadIsUniqueExactlyWithoutNul`).
- `done` of a reindex is the number of its log entries if and only if no object was shredded between the read of its page
  and its transaction (`DoneIsLoggedUnlessShredded`); `ReindexWhileErased` is a run in which one was.
- An unchanged re-wrap says nothing about a row under a wrapper without versions (`UnchangedExactlyWhen`).
- Key versions can go down with two in-place rotators, since the guard compares key ids (`TwoRotatorsLowerAVersion`);
  `WriteLowersExactlyWhen` says exactly when, and with one rotator they never do (`SoleRotatorNeverLowers`).
- `DeleteSubject` erases what its UPDATE finds. A put that commits later stays (`LatePutSurvives`), and nothing else does (`LateObjectsStayLive`).
- A reveal can be logged after the object was shredded (`RevealWhileErased`), exactly when it was shredded between the
  read and the log (`RevealFollowsShredExactlyWhen`).
- A field named like the last4 index of another one makes search miss or confuse values (`SearchIsExactIffNoClash`).

## Model

| member | source | states |
|---|---|---|
| `Identity.AadIsInjective` | internal/store/store.go:43-49 | for collections without NUL a row identity determines collection and id, whatever the id, and is never the identity of the index-key row |
| `Identity.AadIsUniqueExactlyWithoutNul` | internal/store/store.go:43-47 | a row identity belongs to no other (collection, id) if and only if neither part contains NUL |
| `Identity.SeparatorExampleCollides` | internal/store/store.go:43-46 | the very example of the source comment collides, so the comment is wrong as written and the pattern of collection names is what keeps rows apart |
| `Identity.ValidCollectionHasNoNul` | internal/api/api.go:45 | names that the create handlers accept contain no NUL |
| `Identity.HashInputIsInjective` | internal/envelope/envelope.go:334-346 | for NUL-free collection and field, equal hash inputs mean equal collection, field and value |
| `Luhn.LuhnCheck` | internal/schema/types.go:110-126 | the downward loop accepts exactly the strings whose weighted sum (Annex B of ISO/IEC 7812-1) is a multiple of ten, for any length |
| `Luhn.LuhnByPositions` | internal/schema/types.go:110-126 | the weighted sum as a sum over positions: every second digit from the right is doubled, less 9 if that is above 9, with the value of a digit given by the place of its character among 0 to 9 |
| `Luhn.CheckDigitIsUnique` | internal/schema/types.go:110-126 | every prefix has exactly one valid check digit |
| `Luhn.SingleErrorDetected` | internal/schema/types.go:110-126 | changing any one digit of a valid string makes it invalid |
| `Luhn.TranspositionDetected` | internal/schema/types.go:110-126 | swapping two adjacent digits of a valid string is accepted if and only if they are equal or 0 and 9 |
| `Luhn.Digits` | internal/schema/types.go:93-101 | the builder loop reads v at exactly the positions that hold an ASCII digit, ascending, and adds nothing for any other character |
| `Luhn.DigitsAreThere` | internal/schema/types.go:93-101 | of any string: what is kept is the string read at exactly its digit positions, ascending |
| `Luhn.SeparatorsDoNotMatter` | internal/schema/types.go:93-101 | whatever holds no digit can be put in anywhere without a change to the digits |
| `Luhn.ValidateCard` | internal/schema/types.go:73-82 | accepts exactly the strings of digits, blanks and dashes whose digits, read where they stand, are 13 to 19 and pass the checksum |
| `Luhn.ValidatePhone` | internal/schema/types.go:54-62 | accepts exactly the strings of digits and phone punctuation whose digits, read where they stand, are 7 to 15 |
| `Luhn.CardSpellings` | internal/schema/types.go:73-82 | blanks and dashes put in anywhere change nothing about whether a card is accepted |
| `Luhn.PhoneSpellings` | internal/schema/types.go:54-62 | nor does phone punctuation about a phone number |
| `Luhn.PlainSpellings` | internal/schema/types.go:54-82 | without any: 13 to 19 digits that pass the checksum are a card, 7 to 15 digits a phone number |
| `Luhn.OtherCharacters` | internal/schema/types.go:54-82 | one character that is neither a digit nor a separator of the type refuses the whole value |
| `Luhn.CardSingleErrorRejected` | internal/schema/types.go:73-126 | a card written with separators is rejected after any change of one digit |
| `Luhn.CardTranspositionRejected` | internal/schema/types.go:73-126 | a card with two neighbouring digits swapped, also across a separator, passes only if they are equal or 0 and 9 |
| `Emails.EmailShape` | internal/schema/types.go:32-38 | a string is accepted as an email if and only if it has exactly one @, something on both sides and no blank |
| `Emails.OneFormPerAddress` | internal/schema/types.go:30 | two emails have one normal form if and only if, without the whitespace around them, they have one length and agree at each position up to the case of a letter from A to Z |
| `Emails.NormalFormIsPlain` | internal/schema/types.go:30 | a normal form has no capital from A to Z and no whitespace at either end, and is its own normal form |
| `Schema.Parse` | internal/schema/schema.go:57-76 | accepts exactly the schemas whose every field has a known type, an index only if it can be normalized and last4 only on phone and card; an error names a field with that problem |
| `Schema.Validate` | internal/schema/schema.go:128-147 | accepts exactly the objects whose every member is a declared, valid string; an error names an offending member and says whether it is not declared, not a string or not valid for its type |
| `Schema.Indexed` | internal/schema/schema.go:82-105 | in whatever order the fields are visited, the loop builds the entries of that order, and without a name clash every search in them, in any spelling, finds exactly what the object holds |
| `Schema.NormalizeAnswersExactlyWhen` | internal/schema/schema.go:107-124 | a search is answered if and only if the field is indexed or the value has four digits and the field that fragment, under the index of the fragment or of the field; the two errors are told apart |
| `Schema.SpellingsNormalizeAlike` | internal/schema/schema.go:107-124 | two spellings of one address, and two spellings of one number, are looked up alike |
| `Schema.SeparatorsNormalizeAlike` | internal/schema/schema.go:107-124 | a number is looked up alike wherever separators are put into it |
| `Schema.SearchMatchesStorage` | internal/schema/schema.go:79-124 | without a name clash, for every visiting order: what Normalize asks for is what Indexed stored if and only if the object has the field and holds another spelling of the same address, or a number with the same digits, or one whose digits end in the four asked for |
| `Schema.WholeValueIsNotAFragment` | internal/schema/schema.go:111-124 | a valid phone or card value is never looked up as a fragment, so any spelling of it finds it |
| `Schema.SearchIsExactIffNoClash` | internal/schema/schema.go:79-124 | search matches storage for all objects, orders, fields and queries if and only if no indexed field is named another last4 field plus #last4 |
| `Envelope.New` | internal/envelope/envelope.go:141-151 | current wins, of previous wrappers with one id the first is kept, and every id given is held |
| `Envelope.SealedOpensOnlyAsItself` | internal/envelope/envelope.go:163-191 | a sealed value opens, for a reader, if and only if it holds the wrapper, the wrapper answers and the identity is the one sealed with, and then to the plaintext; also when the wrapper does not bind identities |
| `Envelope.RewrapKeepsMeaning` | internal/envelope/envelope.go:258-285 | a re-wrap keeps the ciphertext, ends under the current wrapper and version, and opens exactly as before |
| `Envelope.RewrapMovesExactlyWhen` | internal/envelope/envelope.go:276-284 | a row under another wrapper is re-wrapped and changed if and only if its wrapper is held and answers, its box opens under the identity to a key of 32 bytes, and the current wrapper answers; otherwise the error is that of the first of these that fails |
| `Envelope.RewrapInPlaceExactlyWhen` | internal/envelope/envelope.go:264-275 | under the current wrapper nothing is unwrapped unless that is a key service; then the re-wrap is an error if and only if the service is down or rejects the box, told apart, and a change if and only if the version of the box is not the one reached |
| `Envelope.UnchangedExactlyWhen` | internal/envelope/envelope.go:264-275 | a row is reported unchanged if and only if it is under the current wrapper and that has no versions, or it opens there at the current version |
| `Envelope.UnopenedRowIsReportedUnchanged` | internal/envelope/envelope.go:265-269 | so a row that opens for nobody is reported unchanged under a local wrapper |
| `Envelope.GroupByKey` | internal/envelope/envelope.go:201-204 | each position is in the group of the wrapper it names and in no other, ascending |
| `Envelope.OpenMany` | internal/envelope/envelope.go:193-240 | for any mix of wrappers and any order of groups every slot is Open of its own row, and the call fails as a whole if and only if a backend it needs is down |
| `Envelope.UnwrapMany` | internal/envelope/transit.go:80-126 | one call per 500 keys, ceil(n / 500) in all; answers are those of the chunks in order, and a failed call or an answer of the wrong length fails everything |
| `Envelope.BatchIsPointwise` | internal/envelope/transit.go:80-122 | with an engine that answers items as it would alone, the chunked answers are one Unwrap per key |
| `Transit.VersionOfWritten` | internal/envelope/transit.go:148-160 | the version segment of scheme:version:payload is scheme:version |
| `Transit.SameVersionExactlyWhen` | internal/envelope/transit.go:128-160 | two ciphertexts compare as of one version if and only if scheme and version are equal, whatever the payloads |
| `Transit.VersionOfOtherStrings` | internal/envelope/transit.go:148-160 | a string with fewer than two colons is its own version |
| `Transit.StringsCompareAsNumbers` | internal/envelope/transit.go:148-160 | written as v and a decimal number, two versions compare equal as strings if and only if the numbers are equal |
| `Transit.RewrapComparesStrings` | internal/envelope/transit.go:128-146 | so a re-wrap that compares version numbers reports a change exactly when the source's comparison of ciphertext prefixes does, whatever payloads the service answers with |
| `Strings.PageIsPrefix` | internal/store/store.go:307-311 | a page is at most the limit, ascending past the cursor, jumps over no match, and is short only at the end |
| `Strings.LessExactlyWhen` | internal/store/store.go:302-316 | ids compare by the first position where they differ: there one ends or has the smaller byte |
| `Tables.InsertKeeps` | internal/store/store.go:224-249 | inserting an item with fresh id and key keeps every invariant of the tables, their history and all backups |
| `Tables.ShredKeeps` | internal/store/store.go:328-345 | shredding an object keeps every invariant, and changes nothing that must not change |
| `Tables.RewriteKeeps` | internal/store/store.go:466-487 | rewriting the index rows of an object keeps every invariant; a shredded object gains none |
| `Tables.WriteHeldKeeps` | internal/store/store.go:567-572 | the guarded UPDATE keeps every invariant however stale the copy that the re-wrap was computed from |
| `Tables.ProposeKeyKeeps` | internal/store/store.go:165-179 | proposing an index key keeps every invariant; only the first proposal lands |
| `Vault.ApplyKeeps` | internal/store/store.go:165-616 | every step of every process keeps the invariant of the whole vault and everything of the past |
| `Vault.RunKeeps` | internal/store/store.go:165-616 | so does every run, of any interleaving of servers, rotators, reindexers, starting replicas, backups and crashes |
| `Guarantees.LiveRowOpens` | internal/store/store.go:216-255 | a live row opens to the plaintext given to PutMany exactly for those who hold its wrapper while it answers; the other two outcomes are told apart |
| `Guarantees.StoredObjectOpensOrIsShredded` | internal/store/store.go:552-576 | after any run whatsoever a stored object is shredded or opens, for a holder of its wrapper, to what was stored |
| `Guarantees.NoMixtureOpens` | internal/store/store.go:43-47 | the wrapped key of one row with the ciphertext of another opens only if both are one row, asked for as itself |
| `Guarantees.NoMixtureWithKeyOpens` | internal/store/store.go:41-49 | the same with the index-key row among the rows: nothing of it opens as an object, nothing of an object as it, in any combination |
| `Guarantees.ShredIsPermanent` | internal/store/store.go:318-350 | a shredded row is never touched again in any run and opens for nobody, as no row |
| `Guarantees.ShreddedThreeWays` | internal/store/store.go:328-345 | being deleted, having no wrapped key and having one delete entry are the same thing in every reachable state |
| `Guarantees.AuditLogIsExact` | internal/store/store.go:581-616 | in every run the log only grows, holds one create entry per row, one delete entry exactly for a shredded row, no reindex after a delete, and everything emitted |
| `Guarantees.SearchFindsExactlyTheLive` | internal/store/store.go:302-316 | the query, which never tests for deletion, finds exactly the live objects of the collection whose value last committed for the field is the one asked for |
| `Guarantees.ReplicasAgreeOnIndexKey` | internal/store/store.go:165-190 | any two index keys ever loaded, by any replicas at any times, are the same |
| `Guarantees.EveryReplicaFinds` | internal/store/store.go:302-316 | what one replica indexed every other finds, after any rotations and restarts |
| `Guarantees.ErasureReachesBackups` | internal/store/store.go:3-8 | if an object was shredded before wrapper K first became current anywhere, nothing in any backup ever taken, tried with K, opens its ciphertext |
| `Guarantees.RunShrinksStragglers` | internal/store/store.go:495-579 | while all processes share the current wrapper no step makes any live row, or the index key, need another one |
| `Guarantees.CurrentKeyAloneOpensEverything` | internal/envelope/envelope.go:141-151 | when nothing needs another wrapper, an envelope over the current one alone opens every live row and the index key |
| `Guarantees.RetiredKeyIsNeverNeededAgain` | internal/store/store.go:495-579 | and stays so at every later time, for objects stored meanwhile too |
| `Paging.ReadPageIsPage` | internal/store/store.go:537-545 | a page of 500 holds copies of matching rows past the cursor in id order, and every other match is past the page |
| `Rotation.ScheduleIsRely` | internal/store/store.go:495-506 | every interleaving of other processes with the statements of a rotation is as the rotation relies on |
| `Rotation.RotateRowKeeps` | internal/store/store.go:552-576 | handling one row copy, with anything happening before its statements, keeps the invariant and the past |
| `Rotation.RotateRowMoves` | internal/store/store.go:552-576 | after a row is handled without an error it needs no wrapper but the current one, even when the UPDATE matched nothing |
| `Rotation.SecondRotationIsIdle` | internal/store/store.go:495-579 | after a rotation alone, a second one moves no row and not the index key, in place too, skips the same rows, and fails only if the first one would |
| `Rotation.RowMovesExactlyWhen` | internal/store/store.go:552-576 | in every sound database a rotation alone moves a row if and only if it is live, its wrapper is held and it is under another one or at another version than its service has reached; it skips a live row if and only if its wrapper is not held; and the moved row is the same but for key id and version |
| `Rotation.LoadedRowGoes` | internal/store/store.go:552-576 | among others: a sound row copy whose wrapper is held fails only because something does not answer |
| `Rotation.RenewedIsUnder` | internal/store/store.go:552-576 | after a rotation alone, with the wrappers of all live rows held, everything is under the current one |
| `Store.Store.RotateTwice` | internal/store/store.go:509-579 | two rotations in a row with nobody else around: the second returns 0 moved and as many skipped, and leaves the tables as the first one left them |
| `Database.Database.UpdateKey` | internal/store/store.go:522-572 | the guarded UPDATE changes one row or none, and says which |
| `Store.Store.RotateRow` | internal/store/store.go:552-576 | statement by statement, one row of a rotation does what the row specification says |
| `Store.Store.RotateAmong` | internal/store/store.go:509-579 | a rotation among arbitrary others keeps the invariant; when all share the current wrapper they still do, and no error and nothing skipped means nothing needs another one; alone it ends without an error if and only if the wrapper of the index key is held; then exactly the live rows and the index key that are held and under another wrapper or behind its version are renewed and counted, exactly the live rows whose wrapper is not held are skipped and counted, nothing else changes, and with none skipped everything is under the current wrapper; among others who start nothing under a wrapper that is not held it skips nothing, and ends without an error if everything answers; it terminates once the others are quiet |
| `Store.Store.Rotate` | internal/store/store.go:509-579 | the invariant, the past and the retirement of old wrappers, among any finite schedule of other processes; nothing is skipped, and without failing statements and backends there is no error, if every wrapper that ever was current is held; alone it renews and counts exactly what is held and behind; a rotation that ends is a run of one more process of the step machine, whose other steps are the schedule's, in order |
| `Store.Store.RetireAfterRotate` | internal/store/store.go:495-579 | after a rotation that ends and skips nothing, while all share the current wrapper, an envelope over that one alone opens every live row and the index key, after any later run too; it does end and skip nothing if everything answers and every wrapper that ever was current is held |
| `Simulation.RowIsRun` | internal/store/store.go:552-576 | one row, handled statement by statement among others, is a run of the step machine |
| `Simulation.RowsAreRun` | internal/store/store.go:546-579 | so are the rows of a page, also when a statement or a backend ends the rotation among them |
| `Versions.RunBounded` | internal/envelope/transit.go:43-57 | in every run no row, index key or pending re-wrap is at a version that its key service has not reached |
| `Versions.SoleRotatorNeverLowers` | internal/store/store.go:509-579 | in every run from an empty database in which at most one process writes re-wrapped keys, no step lowers the version of a live row or of the index key while its key id stays |
| `Versions.StoreRotationNeverLowers` | internal/store/store.go:509-579 | a rotation of the store among others of whom none rotates is a run in which no step lowers a version |
| `Versions.WriteLowersExactlyWhen` | internal/store/store.go:552-576 | for any run between a rotator's re-wrap of a row in place and its write: the write lowers the version if and only if the row is still live and the last to write it in between left it under the same wrapper at a later version; that takes a rotation of the service key in between |
| `Versions.TwoRotatorsLowerAVersion` | internal/store/store.go:552-576 | a run from an empty database, of two servers that rotate at once, at whose last write a row goes from version 2 to version 1 |
| `Store.Store.RewriteIndex` | internal/store/store.go:458-493 | replaces the index rows of a live object, field by field in any order, with its entry; leaves a shredded one alone |
| `Store.Store.ReindexAmong` | internal/store/store.go:403-456 | among arbitrary others, page by page what the specification of a run says: each row is counted once, skipped ones are those of trail.missed, each read under a wrapper that is not held or unreadable for the schema; done ones were live when read, and were rewritten if and only if they still were when their transaction looked; if nobody else reindexes, or all go by one schema, every other object in scope that lives throughout ends with the values of the schema, however many were skipped; if nobody else does, no skipped or out-of-scope object changes, the new reindex entries are its own, and done is their number if and only if no object was shredded before its transaction looked; alone done and skipped count the live objects in scope that can and cannot be read, the former end with the values that the schema makes of their plaintexts and one entry each, ascending, and nothing else changes |
| `Store.Store.ReindexObjects` | internal/store/store.go:403-456 | the same among any finite schedule of other processes; also when it stops it is a run of one more process of the step machine |
| `Reindexing.ScheduleKeepsValues` | internal/store/store.go:403-456 | steps of anybody but a reindexer change the indexed values of no existing object |
| `Reindexing.ScheduleIsOfOneSchema` | internal/store/store.go:403-456 | reindexers that go by one schema, in any interleaving, leave each object the values it has or those of the schema |
| `Rebuilding.DoneIsLoggedUnlessShredded` | internal/store/store.go:450-490 | for a whole run beside which nobody else reindexes: the new reindex entries are one for each object that its transaction found live and none for any other; done exceeds their number by the objects shredded between the read of their page and their transaction, so it equals it if and only if there are none |
| `Racing.ReindexWhileErased` | internal/store/store.go:450-473 | a reindex whose one object is erased between the read of its page and its transaction returns done 1, rewrites nothing and logs nothing, whatever the object |
| `ReindexSimulation.ReindexRowIsRun` | internal/store/store.go:432-456 | one row, handled statement by statement among others, is a run of the step machine |
| `ReindexSimulation.ReindexIsRun` | internal/store/store.go:403-456 | so is a whole reindex, whether it ends or stops: a run of one more process, whose other steps are the schedule's, in order |
| `Requests.CommitEmits` | internal/store/store.go:64-72 | after a commit the logger has received exactly the new entries, in order |
| `Store.Store.PutMany` | internal/store/store.go:211-255 | all items land with their index rows and entries, in order, if and only if every statement succeeds, what seals them answers and the drawn ids do not collide; otherwise nothing does; afterwards item i opens to its value, is listed for subject x if and only if x is its subject and x is not empty, is found by exactly its values, and has one entry; rows from before are as they were; every invariant is kept |
| `Store.Store.EraseAfterPut` | internal/store/store.go:211-401 | an object put with a subject, and the subject deleted right after with no failing statement: it is among the objects returned and is shredded |
| `Requests.PutLeavesItems` | internal/store/store.go:211-255 | what a put leaves of each item: a live row of its collection with its subject, none for the empty one, that opens to its value, with an index row for each of its values and one create entry |
| `Store.Store.GetMany` | internal/store/store.go:257-297 | answers if and only if the query succeeds and the wrapper of every live row among the ids is held and answers, then with exactly the live ones, as they were put |
| `Store.Store.Search` | internal/store/store.go:299-316 | fails exactly when its query does; else at most 100 ids past the cursor, ascending, all of live objects that hold the value, none jumped over |
| `Store.Store.Delete` | internal/store/store.go:318-351 | succeeds if and only if the object is live in the collection and no statement fails; then it and nothing else is shredded, its index rows and no others are gone, and one entry is added; otherwise nothing changes, and not found is told apart |
| `Store.Store.DeleteSubject` | internal/store/store.go:364-401 | returns exactly the live objects about the subject, in some order; these and no others are shredded, their index rows and no others are gone, one entry each is added in that order, and nothing is about the subject any more; it fails if and only if one of its statements does, and then nothing happened |
| `Store.Store.AuditMany` | internal/store/store.go:591-606 | the entries are appended as one batch and emitted, or nothing is |
| `Store.LoadIndexKey` | internal/store/store.go:165-190 | with others acting between the proposal and the read, it succeeds if and only if everything answers and the wrapper of the key row is held, and the key returned is the one index key, then and ever after |
| `Store.Connect` | internal/store/store.go:74-142 | opens if and only if the database reports a version, which is 2 unless it may migrate, and the index key loads; before the schema is right nothing is touched; a store that opens is a valid store on its database |
| `Erasure.ShredAllIs` | internal/store/store.go:372-395 | what erasing a list of live objects does to rows, index and log, in closed form |
| `Erasure.ShredAllErases` | internal/store/store.go:328-345 | erasing live objects takes the wrapped keys of exactly their rows, exactly their index rows, and adds one delete entry each in order |
| `Erasure.EraseInAnyOrder` | internal/store/store.go:364-401 | the order in which objects are erased matters to nothing but the order of the entries |
| `Erasure.SubjectIsGone` | internal/store/store.go:364-401 | afterwards no live object is about the subject, and no row about anybody else has changed |
| `Refinement.RunRefinesMap` | internal/api/api_test.go:24-121 | every run refines a plain map from ids to objects: an abstraction that opens every live row commutes with all steps |
| `Refinement.StepRefines` | internal/store/store.go:216-401 | every step is one operation of the map, and every step of a rotation is none |
| `Refinement.SearchRefines` | internal/store/store.go:302-316 | search over hashes answers what a lookup in the map does; a missing field is never found |
| `Refinement.GetRefines` | internal/store/store.go:257-297 | what opens among the ids is what the map holds |
| `Refinement.SubjectRefines` | internal/store/store.go:353-362 | the objects about a subject are those of the map |
| `Locking.StatementIsAtomic` | internal/store/store.go:216-493 | at READ COMMITTED with row locks, every statement leaves the committed state alone or completes one atomic step |
| `Locking.TakeStays` | internal/store/store.go:366-493 | what a transaction has buffered for its locked rows agrees with the committed tables until its commit, whatever others do |
| `Locking.LockedRunIsAtomic` | internal/store/store.go:216-493 | every interleaving of statements commits what the atomic machine reaches in the order of the commits |
| `Locking.IndexIsExactUnderRaces` | internal/store/store.go:466-487 | in every committed state a live object's index rows are exactly the hashed image of its values last committed, a shredded one has none, and the log is exact |
| `Locking.CandidatesAreShredded` | internal/store/store.go:372-399 | when DeleteSubject commits, every object its UPDATE found is shredded, by it or by somebody faster, with one delete entry |
| `Realising.RunIsReached` | internal/store/store.go:216-493 | the converse: every run of the atomic machine whose erasures are those of calls is one that statements, locks and commits come to |
| `Realising.DeleteSubjectHappens` | internal/store/store.go:364-401 | with nobody else around the statements of a DeleteSubject, its rows in any order, do reach the commit that erases them all |
| `Realising.RewriteHappens` | internal/store/store.go:458-493 | those of rewriteIndex, its fields in any order, the commit that rewrites them all |
| `Realising.PutHappens` | internal/store/store.go:211-255 | those of a put the commit of all its items |
| `Latecomers.LateObjectsStayLive` | internal/store/store.go:366-399 | for every interleaving: when DeleteSubject commits, the live objects about the subject are exactly those whose row was not committed when its UPDATE looked |
| `Latecomers.LatePutSurvives` | internal/store/store.go:366-399 | a run from an empty database after which DeleteSubject has committed and an object about the subject is live |
| `Api.FirstOrderIsUnique` | internal/api/api.go:305-328 | first-occurrence order determines the list, and admits no duplicates |
| `Api.Server.Split` | internal/api/api.go:305-328 | the loop partitions the ids into objects and missing, each in order of first occurrence, with one entry per object |
| `Api.Server.RevealBatch` | internal/api/api.go:269-333 | answers if and only if the request is well-formed and permitted, the query succeeds, every row opens and can be rendered, the budget grants a full reveal, and the log is written; else with the status of the first reason; an answer partitions the ids asked for and was logged first with one stamped entry each, as a full reveal exactly for level full; it shows each live object as it was put, whole exactly for level full, which takes the role read_full, and else as the masked fields of its plaintext; a refusal shows and logs nothing; what is spent is stated for every outcome |
| `Api.RevealFollowsShredExactlyWhen` | internal/api/api.go:297-333 | the log of a reveal names an object after its delete if and only if the object was shredded between the read and the log |
| `Api.RevealWhileErased` | internal/api/api.go:297-333 | it happens to every object that can be revealed: an erase between the read and the log, and the answer shows it, logged after its delete |
| `Api.Server.Search` | internal/api/api.go:355-401 | answers if and only if role, budget, cursor, field, query and log allow it, else with the status of the first reason; a permitted request spends one unit; an answer is one page of the world of the query, with a cursor exactly when it is full, and one entry with the caller, the action, the collection, no object and the index in the world of the log, others acting in between |
| `Api.AnySpellingFinds` | internal/api/api.go:378-387 | a search under any spelling finds a stored object if and only if the object holds a matching value |
| `Api.AnyAddressFinds` | internal/api/api.go:378-387 | an object stored with an indexed address is found by exactly the spellings of that address |
| `Api.WellFormedExactlyWhen` | internal/api/api.go:46 | a cursor is well-formed if and only if it is tok_ and 32 lower-case hexadecimal digits |
| `Walking.Walk` | client/client.go:102-115 | walking through the handler by the cursor of each page gives no id twice, only ids that matched, and, unless refused, every id that matched throughout, with anything happening in between; on a fixed database it gives the ascending list of all n matches in floor(n / 100) + 1 requests; a walk that role, schema, budget and statements allow is not refused |

## Left out

- Luhn.Digits: text is a sequence of characters; decoding of UTF-8 is not modelled.
- Schema.SearchMatchesStorage: lower-casing of emails is for the letters A to Z only; trimming is for all of Unicode's whitespace.
- A commit whose outcome is unknown to the client: COMMIT here either lands or is reported as failed.
- Nonces: two boxes with the same content are the same term, so re-wrapping twice at one version gives equal keys.
- Cryptographic primitives, constant-time comparison and key derivation: replaced by the symbolic terms above.
- JSON decoding, canonical re-encoding, size limits and the reserved subject key of parseObject: objects are maps from names to JSON values.
- HTTP, TLS, client authentication, roles beyond the role a handler asks for, metrics, environment and flags.
- The token bucket: an oracle that grants or refuses n units.
- The network side of Transit and all of the AWS KMS wrapper: a wrapper that answers, rejects or is down.
- A minimum decryption version set on a key service: old versions keep opening.
- Store.Connect: what the migrations do to the tables is not modelled; the schema version is what the database reports.
- Grants and database roles.
- Masks, the create, delete and subject handlers, and the ordering of a subject's listing are not modelled.
- Direct SQL tampering: rows that do not open or name an unloaded wrapper occur in the lemmas about skipping, and the invariants are about what the program writes.
