# nyet, modelled and proved

A Dafny model of the parts of nyet (a read-only database client for agents) that its promises rest on,
with proofs of those promises over every input, every run and every choice of a server's replies.
Check it with `dafny verify dfyconfig.toml`.

| part | files |
|---|---|
| the MongoDB parser: a grammar as functions, and the cursor-moving parser proved equal to it | `MongoSyntax`, `MongoRequests`, `MongoParser`, `ParsedDepth` |
| what a printed query text means: methods, arguments, cursor calls, constructors | `MongoTexts`, `MongoSpellings` |
| printing a result and reading it back | `Json`, `JsonText`, `JsonStyles`, `ExtJson` |
| the allowlist walk and net A of the `[pii]` policy | `Classifier`, `CleanTrees`, `WalkIsExact`, `PolicyScope`, `Policy`, `RefusalCauses` |
| net B, the scan of the reply | `Redaction`, `ScanFaults`, `ReplyScan` |
| the command sent, what it answers, how the reply is read | `MongoCommand`, `MongoAnswers`, `MongoDistinct`, `MongoReply`, `MongoDollarKey`, `Rows` |
| the guarded sessions against nondeterministic servers | `Budgets`, `Verdicts`, `PgServer`, `PgSession`, `MySqlServer`, `MySqlSession`, `WriteProbe` |
| the estimators and the verdict | `MySqlEstimate`, `MySqlPlans`, `Guardrail` |
| the audit log | `AuditSink`, `AuditLog`, `AuditLines` |
| `${VAR}` in the configuration: strings, the check on the raw tree, the typed decoding, the modes | `Config`, `ConfigCheck`, `ConfigDecode`, `ConfigTexts`, `ConfigModes` |
| generated text | `Sample`, `SampleMongo`, `DataGrip` |

`Outcomes`, `Numbers` and `Values` hold the shared result types, saturating arithmetic and the BSON values.

How to read it. Code that moves a cursor, loops or overwrites fields is a class or a method proved
against a function; the theorems are about those functions. Servers, sockets, clocks and the file
system are machines that may do anything their documentation allows: a method with `:= *` stands for
every choice. Conversions whose meaning belongs to a library (`char::is_alphanumeric`, `f64::from_str`,
dates, decimals, UUIDs) are fields of the record `Lib`, and a theorem that needs something of them says so.

What turned out false of the code is stated as such, with the exact condition under which it holds:

- "the same spelling that can be pasted back into the next filter" (src/mongo.rs:2484) holds exactly
  for plain values within the depth limit (`ExtJson.PrintedValueReadsBack`); binary data, code, symbols,
  undefined, DBPointers, foreign regular-expression options and one-field documents named like a type
  wrapper do not come back.
- A pipeline stage need not be on the stage allowlist when its key does not start with `$`
  (`Policy.PlainStagePasses`); `Policy.AcceptedExactly` gives the exact rule.
- `unique_alias` is unique exactly when no base is the numbered form of another
  (`DataGrip.AliasesAreDistinct`, `DataGrip.ProdClashes`).
- `toml_string` writes U+007F raw, which TOML forbids; every other value reads back
  (`DataGrip.TomlReadsBack`).
- "`$sort` makes a truncated answer deterministic" (src/mongo.rs:2404) can fail where an array stands in
  the array of the field, because arrays are grouped whole and sorted by their smallest element
  (`MongoDistinct.NestedArraysDiffer`); the exact condition is `MongoDistinct.FirstRowsDetermined`, and
  one that can be checked beforehand `MongoDistinct.ListingsAgree`.
- "policy values must be static literals" (src/config.rs:640) holds of sections written as tables,
  whatever the later checks are (`ConfigDecode.EnvironmentsAgree`); a section written as an array is not
  seen by the raw check but is decoded (`ConfigModes.ArraySectionIsNotSeen`). It holds under all later
  checks exactly when the policy decoded as written is steady (`ConfigDecode.EnvironmentsAgreeExactly`).
  A particular check may save more files (`ConfigModes.LaterCheckMaySave`); for the check of the mode
  and an array section the exact condition is `ConfigModes.ModeIsFreeExactly`.
- `distinct` keeps its meaning for keys that are field names, which is a sufficient condition only; a
  key that starts with `$` passes layer 1 (`MongoDollarKey.DollarKeyPasses`) and becomes a variable
  reference in the pipeline (`MongoDollarKey.DollarKeyIsAVariable`), whose value the server decides.
- The audit log holds whole records only as long as cutting back succeeds; what a failed cut leaves is
  accounted for exactly (`AuditLog.LogIsExact`, `AuditLog.WholeWithoutFailedCuts`).

Where a comment and the code part, the model follows the code: src/mongo.rs:2301 still speaks of
`singleBatch`, which the code no longer sends.

## Model

| member | source | states |
|---|---|---|
| MongoParser.Parse | src/mongo.rs:609-730 | The cursor-moving parser returns, for every text, exactly the request or the refusal reason the grammar gives, the 64 KiB limit and the order of the checks included; what the grammar makes of a text is said by the MongoTexts rows. |
| MongoTexts.FindMeans | src/mongo.rs:862-874 | For every collection, faithful style and JSON objects that denote documents: the text db.<c>.find(<f>, <p>) with its cursor calls, or findOne, parses to the find whose filter is the first argument and whose projection is the second; each of .sort, .skip, .limit sets its own part to what is printed, in whatever order they come, and findOne is a limit of one. |
| MongoTexts.OtherCallsRefused | src/mongo.rs:947-1052 | Otherwise a find is refused: for a cursor call that comes twice, a .limit after findOne, a limit below one, a skip below zero, a sort by nothing or by something else than a document. |
| MongoTexts.CountMeans | src/mongo.rs:891-897 | countDocuments(<f>) parses to the count of that filter, and without an argument to that of the empty one. |
| MongoTexts.DistinctMeans | src/mongo.rs:898-930 | distinct(<key>) and distinct(<key>, <f>) parse to that field and that filter. |
| MongoTexts.AggregateMeans | src/mongo.rs:875-890 | aggregate(<list>) parses to the stages of the list, in their order. |
| MongoTexts.MisfitRefused | src/mongo.rs:832-940 | One argument more than a method takes (an options document), or one of the wrong kind, refuses the query, with the reason of the case. |
| MongoTexts.CallAfterOtherRefused | src/mongo.rs:947-960 | A cursor call on anything but a find is refused. |
| MongoTexts.OtherMethodRefused | src/mongo.rs:781-815 | Any method but the five, whatever follows its parenthesis, is refused, a writing one as a write and mapReduce as code, and so is every system.* collection before its method is looked at. |
| MongoTexts.NothingFollows | src/mongo.rs:722-730 | One semicolon may end a query; anything else behind it, and anything behind the semicolon, is refused. |
| MongoSpellings.ConstructorReads | src/mongo.rs:1567-1680 | A call of one of the seven type constructors, with new or without, is read as what the constructor makes of its argument. |
| MongoSpellings.ConstructorsAreWrappers | src/mongo.rs:1587-1680 | On a text every constructor makes what the extended-JSON wrapper of its type makes of it. |
| MongoSpellings.NumbersAreMade | src/mongo.rs:1587-1680 | Of a whole number NumberLong makes 64 bits, NumberInt 32 when it fits and a refusal otherwise, and $date the moment. |
| MongoSpellings.WrittenNumbersMean | src/mongo.rs:1203-1336 | $numberLong and $numberInt of a number written out mean that number exactly as far as it fits. |
| MongoSpellings.ObjectIdsMean | src/mongo.rs:1203-1336 | An object id is 24 hexadecimal digits and nothing else; upper and lower case are the same id. |
| MongoSpellings.OptionsAreOrdered | src/mongo.rs:1545-1562 | Of the options of a regular expression each of imsx is kept once, in that order; any other letter refuses it. |
| MongoSpellings.ApostropheReads | src/mongo.rs:1360-1404 | An escaped apostrophe is read as an apostrophe in a string of either quote. |
| MongoParser.Parser.SkipWs | src/mongo.rs:509-545 | White space, line comments and block comments are skipped to where the grammar says; an unclosed block comment is refused. |
| MongoParser.Parser.ParseValue | src/mongo.rs:1066-1129 | One value is read, or refused for the grammar's reason, and the cursor stops where the value stops; the depth limit comes first. |
| MongoParser.Parser.ParseDocument | src/mongo.rs:1135-1193 | The nested document loops read one document: a repeated field is refused, one trailing comma allowed, a type wrapper resolved. |
| MongoParser.Parser.ParseString | src/mongo.rs:1360-1404 | The character loop of a string literal, escapes included, reads what the grammar reads. |
| MongoParser.Parser.ParseUnicodeEscape | src/mongo.rs:1409-1440 | Four hexadecimal digits, or two escapes that form a surrogate pair; a lone surrogate is refused. |
| MongoParser.Parser.ScanNumber | src/mongo.rs:1445-1470 | The scanning loop stops exactly at the end of the number, and knows whether a decimal point or an exponent was in it. |
| MongoParser.Parser.RegexPattern | src/mongo.rs:1495-1530 | The pattern ends at the first slash that is neither escaped nor in a character class. |
| MongoParser.Parser.ParseArgs | src/mongo.rs:736-773 | The argument list up to its parenthesis, at the depth of the call. |
| MongoParser.Parser.ParseChain | src/mongo.rs:700-722 | The cursor calls after the method are judged and applied to the operation one after the other. |
| MongoCommand.ParsedIsBounded | src/mongo.rs:1018-1052 | Of every text that parses: a limit is at least 1 and a skip at least 0, so neither means "none"; a distinct key is not empty and has no dot. |
| ParsedDepth.ParsedRequestFits | src/mongo.rs:465-471 | Every request that parses nests within the depth the classifier allows, one level to spare, so the walk never refuses for depth what the parser let through. |
| JsonText.StringReads | src/mongo.rs:1360-1440 | Every legal spelling of a string under section 7 of RFC 8259, raw, short escape, \uXXXX or surrogate pair, is read back as that string and no further. |
| JsonText.TreeReads | src/mongo.rs:1066-1193 | The printed text of any JSON tree before a delimiter is read as the value the tree denotes, or refused for the tree's own reason, and the reading stops at the end of the text. |
| JsonText.NumberReads | src/mongo.rs:1445-1491 | The decimal text of an integer reads as Int32 or Int64 by its size, and is refused beyond 64 bits. |
| JsonStyles.StylesAreFaithful | src/mongo.rs:1360-1440 | The escapes nyet prints with are JSON, and so is the pure-ASCII spelling with surrogate pairs. |
| ExtJson.PrintedValueReadsBack | src/mongo.rs:2481-2485 | For every well-formed value of every BSON type, style and depth: printed as relaxed Extended JSON and pasted back it is read as itself (64-bit integers that fit 32 bits narrowed) and no further, if and only if the printed tree nests within the depth limit and the value is plain: no binary, code, symbol, undefined or DBPointer value, no regular-expression options beside imsx in order, no one-field document whose field is named like a type wrapper, at any depth. |
| ExtJson.ReadIsShallow | src/mongo.rs:1066-1069 | No tree that nests past the depth limit is read, wherever the depth is spent. |
| ExtJson.ValueReturns | src/mongo.rs:1203-1336 | The tree of a printed value denotes the narrowed value exactly when the value is plain. |
| ExtJson.NarrowIsIdentity | src/mongo.rs:1480-1491 | Narrowing changes a value exactly when some Int64 in it fits 32 bits. |
| ExtJson.BinaryIsRefused | src/mongo.rs:1316-1324 | What a binary value prints is never read back. |
| WalkIsExact.ClassifyIsExact | src/mongo.rs:1972-2201 | Within the depth bound the recursive walk accepts a request exactly when every node at every path of every tree of it is clean; nothing is missed and nothing else is refused. |
| CleanTrees.CleanUnfolds | src/mongo.rs:2142-2201 | Being clean at every path means: the root is clean, and so is every subtree one hop below. |
| Policy.CheckIsExact | src/mongo.rs:431-460 | For every text and policy: accepted exactly when it parses and what it parses to is clean; what is accepted is the parsed request, unchanged. |
| Policy.AcceptedExactly | src/mongo.rs:1739-2292 | For every text and every policy in force for it: accepted exactly when it parses, every node at every depth of it passes the allowlists and names nothing protected (read off paths and spellings, not off the walk), and a distinct key names nothing protected. |
| Policy.AcceptedNeverWrites | src/mongo.rs:2214-2292 | No accepted query carries $out, $merge, $where, $function or $accumulator as a key, at any depth of any of its trees. |
| RefusalCauses.RefusedForACause | src/mongo.rs:1972-2292 | A query that parses is refused only for what it is: some node of it, or its distinct key, is what the reason says (a writing key, a scripting key, an unlisted one, a foreign namespace, a protected name, an operator or variable that moves values namelessly, a malformed stage). |
| PolicyScope.PolicyInForce | src/mongo.rs:1713-1737 | The policy the code applies is the one in force: a name is protected exactly when a rule pairs it with the collection of the request or with one some namespace key at some path names, the mode is that of the rules, and there is no policy exactly when there is no such name. |
| PolicyScope.OneInForce | src/mongo.rs:1713-1737 | There is one policy in force for a request. |
| PolicyScope.PathHitIsExact | src/mongo.rs:1739-1748 | A path is hit exactly when one of its dot-separated segments is a protected name, letter case aside. |
| Policy.PlainIsListed | src/mongo.rs:2103-2292 | Without a policy a node passes exactly when its $-keys are on the lists of its position, a stage has one key, and no namespace stage names system.* or another database. |
| Policy.NetAIsExact | src/mongo.rs:1739-1882 | With a policy a node passes exactly when it also names no protected path segment as a key, reference, branch or stage name, and has no operator that moves values namelessly; under mask only a literal projection and the operands of $unset are let off. |
| Policy.ProjectionReaches | src/mongo.rs:2006-2072 | The relaxed position is the projection of find or the value of a $project stage, and plain fields below it; nothing else. |
| Policy.StricterAdmitsLess | src/mongo.rs:435-460 | Relational over the whole walk: with more rules, or deny for mask, whatever is accepted is accepted by the laxer policy too, as the same request; with no rules at all this is the plain check. |
| Policy.RulesMonotone | src/mongo.rs:1713-1737 | On every request the policy with more rules protects at least as many names and relaxes no more. |
| PolicyScope.ScopeIsExact | src/mongo.rs:1914-1950 | The scope of the policy is exactly the collection of the request and every collection some $lookup, $graphLookup or $unionWith at any depth names. |
| Policy.PlainStagePasses | src/mongo.rs:2214-2217 | A stage whose one key is no $-operator is let through by the code (the allowlist judges $-keys only); the server is left to refuse it. |
| ReplyScan.ScanReply | src/mongo.rs:2599-2645 | Net B, under the policy in force: without protected names in scope the rows are returned as they came; under mask every cell and value under a protected key is replaced and the names met are returned; under deny an answer comes only when nothing protected was met, and then unchanged. Of a find or an aggregation every cell of a protected column is the marker and the column among the names, and under deny such a column withholds the answer. A withheld answer carries the reason of the first fault. |
| ReplyScan.OwnColumnsDecideNothing | src/mongo.rs:2610-2615 | Of count and distinct the name of the column decides nothing. |
| ReplyScan.Scan.ScanValue | src/mongo.rs:2647-2692 | The scan of one value agrees with the pure redaction, collects exactly the outermost protected keys, and otherwise fails for the first fault on its way. |
| ScanFaults.FaultTells | src/mongo.rs:2647-2692 | There is no fault exactly when everything lies within the depth limit and, under deny, nothing protected is met; a fault for a name is under deny and some name is met, a fault for depth means something lies too deep. |
| ReplyScan.AnswerFaultTells | src/mongo.rs:2599-2645 | The same of a whole answer, its columns and cells together. |
| ReplyScan.Scan.ScanCells | src/mongo.rs:2631-2636 | The loop over the rows puts each cell back redacted and leaves the number of rows and cells alone. |
| ReplyScan.SecondScanChangesNothing | src/mongo.rs:2599-2692 | Scanning an answer again finds the same names and changes nothing. |
| Redaction.RedactKeepsOpenPaths | src/mongo.rs:2647-2692 | Along paths through no protected key the redacted tree has the same shape and holds the redaction of what was there. |
| Redaction.RedactHidesProtected | src/mongo.rs:2647-2692 | At a protected key there is the marker and nothing below it, at any depth. |
| Redaction.MetIsExact | src/mongo.rs:2647-2692 | The names returned for one value are exactly the protected keys at the end of a path through no other protected key. |
| ReplyScan.NamesAreExact | src/mongo.rs:2599-2645 | The names returned for a result are exactly its protected columns and the outermost protected keys of the cells that stand in no protected column. |
| Redaction.RedactTwice | src/mongo.rs:2647-2692 | Redaction is idempotent and the same names are met again. |
| Redaction.NothingMetNothingChanged | src/mongo.rs:2647-2692 | A tree in which no protected key is met is its own redaction. |
| MongoCommand.Command | src/mongo.rs:2310-2444 | Read by a server through the names of its fields, the document that is built field by field asks exactly for what the request means under nyet's own row limit, batch size and time limit. |
| MongoCommand.CommandIsBounded | src/mongo.rs:2299-2318 | Of every text that parses: under a fetch limit the command reads the collection the text names and carries a row bound between 1 and that limit (1 for a limit of 0), the same as its batch size, as the last stage where it is a pipeline; its time limit is the one given, cut to 32 bits, so that 0 (none) is never sent for another, and a skip is not negative. |
| MongoAnswers.CommandServes | src/mongo.rs:2299-2318 | A server that works from the document answers exactly what it may answer to the request cut to nyet's limit: the agent's limit and nyet's together are one cut after the other. |
| MongoAnswers.SpelledIsRead | src/mongo.rs:2362-2438 | The stages nyet writes are read by a server, by the names in their documents, as what they stand for. |
| MongoCommand.Effective | src/mongo.rs:2333-2342 | The limit sent is one of the two given and no larger than either, so the agent's .limit never raises nyet's. |
| MongoCommand.Fetch | src/mongo.rs:2311 | The fetch limit as sent is at least one, fits 64 bits, and is the limit itself whenever that does. |
| MongoDollarKey.DollarKeyPasses | src/mongo.rs:892-927 | For every accepted collection and every name without a dot, the text db.<collection>.distinct("$<name>"), in any faithful escape style, passes layer 1 as that distinct. |
| MongoDollarKey.DollarKeyIsAVariable | src/mongo.rs:2407-2422 | The pipeline of such a key groups by the variable of that name instead of the field. |
| MongoAnswers.LimitIsAPrefix | src/mongo.rs:2318-2440 | On any server that runs stages like nyet's own, read by the names in their documents, as documented (whatever order $match, $group and ties of $sort come in), what is answered under the limit is the beginning of something that may be answered without it. |
| MongoAnswers.CountIsExact | src/mongo.rs:2373-2397 | The counting pipeline answers the number of documents that match, in one document, and no document when none match. |
| MongoReply.BatchHoldsAnswer | src/mongo.rs:2343-2357 | The batch size of the command is never below the number of rows of its limited answer, so only the server's own size limit can leave the cursor open; a count is one document at most. |
| MongoReply.CountReadsBack | src/mongo.rs:2500-2509 | What is read back for countDocuments is exactly the number of matching documents, 0 for none. |
| MongoAnswers.DistinctIsExact | src/mongo.rs:2398-2440 | For keys that are field names (sufficient, not necessary), whatever order $group emits: the uncut answer lists every value of the field once up to the server's equality, sorted by the server's order (arrays unwound; null for a null, absent or empty-array field), and the fetch limit takes its first rows. |
| MongoDistinct.FirstRowsDetermined | src/mongo.rs:2398-2404 | The first k values are the same ones in every listing a server may give, if and only if the values on both sides of position k do not tie under its sort. |
| MongoDistinct.ListingsAgree | src/mongo.rs:2398-2404 | Where no document holds an array right inside the array of the field there is one listing: two agree position by position up to the server's equality. |
| MongoDistinct.NestedArraysDiffer | src/mongo.rs:2398-2404 | The promise that $sort makes a cut answer deterministic does not hold: for {x: [[1,2],[1,3]]} and a fetch limit of 1 a server that runs every stage as documented may answer either value. |
| MongoAnswers.AllUnwoundValues | src/mongo.rs:2413-2422 | Unwinding with preserveNullAndEmptyArrays and reading the field gives exactly the values distinct is asked for. |
| MongoReply.DistinctReadsBack | src/mongo.rs:2512-2527 | The rows read back are the first values of such a listing, one value a row, all of the first k when the cursor was closed. |
| MongoReply.DistinctIsDetermined | src/mongo.rs:2398-2404 | Without arrays in arrays two answers to the same command have as many rows and agree row by row, up to the server's equality. |
| MongoReply.ColumnsAreFirstSeen | src/mongo.rs:2525-2540 | The columns are the names of all documents, each once, in the order of first meeting. |
| MongoReply.ReadDocs | src/mongo.rs:2525-2579 | Every cell is the document's value under the column, or null; the growing column list and the alignment compute exactly that. |
| MongoReply.ReadReply | src/mongo.rs:2486-2546 | Every server reply, in whatever order its fields come, is read as the batch it carries, with the cursor said to be open exactly when an id is there and is not Int64(0); a document without a cursor document or without a list under firstBatch is refused. |
| MongoReply.SentIsRead | src/mongo.rs:2486-2498 | The batch and the open cursor a server puts into its reply are what is taken out of it. |
| MongoReply.ReleaseReply | src/mongo.rs:2298-2546 | From server to agent: of the reply document that carries the beginning of the answer, the rows released are those of the first documents of the query's own answer, at most the limit; when truncated is not said they are the whole answer, and when there were more it is said. |
| Budgets.DeadlinesNest | src/engine.rs:245-279 | From 1000 ms up: the server's cap is the smaller of 5 s and the timeout less 700 ms, the client's own deadline comes 500 ms after it, and at least 200 ms before the query's. |
| PgSession.Postgres.Execute | src/engine.rs:1148-1283 | For every choice of server replies and expiring timers the replies decide the outcome: refused exactly when the EXPLAIN was answered with a plan the guardrail refuses and the repair was confirmed, too slow exactly when the EXPLAIN was cancelled or outlasted the client's deadline for it, timed out exactly when the query's deadline passed before an answer; the query is sent exactly when the session was opened, the repair confirmed and the plan not refused. It travels at most once, alone, in a live read-only transaction under its own timeout, the EXPLAIN under the lent one; the messages are one of the listed sequences for the outcome. |
| PgSession.Postgres.GuardedPlan | src/engine.rs:1741-1785 | After the EXPLAIN either nothing more is sent (too slow, or out of time) or exactly the repair; a plan is used exactly when both were answered, as the estimate of the plan answered; unless the connection is to be discarded the query's own timeout is back and the transaction is live. |
| PgSession.Postgres.Begin | src/engine.rs:1672-1688 | The opening message starts the read-only transaction first and arms savepoint and budget in the same message. |
| PgSession.Postgres.Fetch | src/engine.rs:1230-1283 | The query is sent once, and only an empty answer is followed by a describe. |
| PgSession.ArmingOpens | src/engine.rs:1672-1688 | Arming leaves an active transaction under the budget, with the query's timeout saved. |
| PgSession.RepairRestores | src/engine.rs:1755-1785 | However the EXPLAIN ended on the server, the rollback to the savepoint alone already gives the timeout back, and the whole repair gives the query's own. |
| PgSession.QueryAtMostOnce | src/engine.rs:188-229 | In every complete run the query is sent at most once, never when it was refused or planned too slowly, and BEGIN comes first. |
| MySqlSession.MySqlClient.SetStatementTimeout | src/engine.rs:2536-2579 | The search over the two variable names: on success exactly the attempts up to the server's own name were sent, the lead with the first alone, and the cap is set where the server has one; on failure a non-empty beginning of them was; what was learned is true and never changed. |
| MySqlSession.MySqlClient.Try | src/engine.rs:2545-2566 | One spelling sent behind the lead: success means it was the server's own name, an unknown variable means it was not. |
| MySqlSession.MySqlClient.GuardedPlan | src/engine.rs:2587-2615 | A plan that may be used leaves the query's own cap in force; a plan that took too long is the last thing said, and so is a cap that failed. |
| MySqlSession.MySqlClient.Execute | src/engine.rs:2653-2769 | For any flavor under any label the replies decide the outcome: refused exactly when the EXPLAIN was answered with a plan the guardrail refuses and no message of the session failed, too slow exactly when the EXPLAIN was cancelled or outlasted the client's deadline, and the query is sent exactly when nothing failed and the plan was neither refused nor cut off. It travels alone, in the one read-only transaction and under its own cap, the EXPLAIN under the lent one; the messages of the whole run are one of the listed sequences for the outcome. |
| MySqlSession.QueryAtMostOnce | src/engine.rs:2653-2769 | In every complete run, on a server of any flavor, the query is sent at most once, and never when it was refused or planned too slowly; without a guardrail nothing is planned. |
| MySqlSession.CapIsTight | src/engine.rs:2382-2398 | The cap is the timeout asked for on MySQL, and on MariaDB longer by less than a second. |
| MySqlSession.OwnNameIsTried | src/engine.rs:2367-2380 | While what has been learned is true, the server's own name is among at most two candidates, the only one once it is known, and the first one where the label is right. |
| WriteProbe.Server.Probe | src/engine.rs:3234-3275 | The verdict is decided by the replies: blocked exactly for the errnos of a read-only mode (1290, 1836) or of denied DDL (1142, 1044, 1227), unverified without a table for any other error, and with it named when an acknowledgement was lost. The tables change by the probe table at most, and a DROP follows only a confirmed CREATE of that name. |
| WriteProbe.Server.Diagnose | src/engine.rs:2865-2908 | The probe runs exactly when both bounds were answered and one of them holds; otherwise nothing is sent. |
| WriteProbe.EveryOrphanIsNamed | src/engine.rs:3209-3275 | After any number of probes, every table they may have left behind is named by some verdict. |
| MySqlEstimate.MysqlEstimate | src/guardrail.rs:467-511 | The map-growing loop and the totalling loop compute the closed form: (independent selects plus dependent ones of one row, at least 1) times the product of the dependent ones above 1, cut to 64 bits. |
| MySqlPlans.OneStep | src/guardrail.rs:478-482 | A plan of one step with a row count estimates that count, at least 1 and at most 64 bits. |
| MySqlPlans.EstimateCoversStep | src/guardrail.rs:478-511 | The estimate is no smaller than any row count the plan prints. |
| MySqlPlans.TablelessIsOneRow | src/guardrail.rs:462-482 | A step that reads no table and prints no count stands for one row. |
| MySqlPlans.SilentStepIsIgnored | src/guardrail.rs:462-482 | Any other step without a count leaves the estimate as it is. |
| MySqlPlans.NoEstimate | src/guardrail.rs:507 | There is no estimate exactly when no step has a count or reads no table. |
| MySqlPlans.StepsMultiply | src/guardrail.rs:448-452 | The steps of one select are joined: one more multiplies what the others estimate. |
| MySqlPlans.SelectsAdd | src/guardrail.rs:452-460 | Plans put together add up where no select is dependent on more than one row. |
| MySqlPlans.DependentMultiplies | src/guardrail.rs:452-460 | A dependent select of more than one row multiplies the estimate of everything around it. |
| MySqlEstimate.GroupRows | src/guardrail.rs:473-493 | The map holds for each select the product of its steps and whether any step is dependent. |
| MySqlEstimate.Total | src/guardrail.rs:494-505 | Taking the selects in any order gives the same sum and the same product. |
| MySqlEstimate.EstimatePermutes | src/guardrail.rs:467-511 | The estimate is the same for every permutation of the plan rows. |
| MySqlEstimate.EstimateCovers | src/guardrail.rs:448-511 | The estimate is at least the product of any one select. |
| MySqlEstimate.EstimateMonotone | src/guardrail.rs:448-511 | Raising the row counts a plan prints never lowers the estimate, also where a dependent select goes from one row to two and stops being added. |
| MySqlEstimate.WorkGrows | src/guardrail.rs:494-511 | The inductive heart of that: what the sum loses at the jump the product makes up for, beside any amount of other work. |
| Guardrail.MaxIsUpperBound | src/guardrail.rs:410-421 | No node anywhere in the plan claims more rows than the estimate. |
| Guardrail.MaxIsAttained | src/guardrail.rs:410-421 | Some node claims as many. |
| Guardrail.VerdictMeans | src/guardrail.rs:181-216 | Expensive exactly when the number of the mode exists and exceeds its limit; ok exactly when it exists, is within the limit, and no Recursive Union node stands anywhere in the plan. |
| Guardrail.CostIsTheTopTotal | src/guardrail.rs:392-398 | The cost compared is the "Total Cost" of the "Plan" of the first element, and nothing else. |
| Guardrail.RowsCoverEveryNode | src/guardrail.rs:399-421 | The rows compared are no fewer than the "Plan Rows" of any node, however deep. |
| Guardrail.RecursionIsSeen | src/guardrail.rs:404-436 | A node of type "Recursive Union" anywhere makes the estimate a lower bound. |
| Guardrail.RefusalIsMonotone | src/guardrail.rs:181-216 | An estimate nowhere smaller is refused whenever the smaller one is. |
| Guardrail.GraftHidesNothing | src/guardrail.rs:410-436 | Inserting any subtree anywhere lowers no row estimate and hides no node type. |
| Guardrail.GraftKeepsCost | src/guardrail.rs:392-408 | A subtree inserted anywhere but in front of the whole plan leaves the cost of the top node as it is. |
| Guardrail.GraftCannotHide | src/guardrail.rs:181-216 | A refused plan stays refused after any insertion, if and only if it is not the cost that is compared, or the insertion is not in front of the plan, or what is put there is refused itself. |
| AuditSink.Sink.WriteFlush | src/audit.rs:188-202 | Through partial writes and failures of write and flush, a record is in the file whole with its newline and flushed, or the file is as it was; otherwise cutting it back failed too. |
| AuditSink.Sink.WriteAll | src/audit.rs:188-202 | The writes add up to everything exactly on success, and to a proper prefix otherwise. |
| AuditSink.Sink.Append | src/audit.rs:130-165 | Whatever fails on the way, the cutting back included, the append is a run of steps of its command alone in the many-command machine, from the state it found to the file it left; it is listed as a record exactly on success, as a torn one exactly when the cut failed. |
| AuditSink.Sink.Finish | src/main.rs:693-768 | With auditing on, a result is released only after its record is in the file and flushed, and the end of the command is a run of its own steps that ends in the result or in AUDIT_FAILED; with auditing off the file is not touched. |
| AuditLog.LogIsExact | src/audit.rs:130-202 | In every interleaved run of any commands, whenever the lock is free the file is its original content followed, in lock order, by what the commands left: the records whose append succeeded, each whole and once, and the beginning of a record exactly for each cut that failed. Results given are among the whole ones. |
| AuditLog.WholeWithoutFailedCuts | src/audit.rs:130-202 | In a run in which no cut fails the file is its original content and whole records. |
| AuditLog.CutsTear | src/audit.rs:183-202 | From any state: a torn record is listed exactly when it was before or one of the steps is a cut that failed. |
| AuditLog.StepKeepsInv | src/audit.rs:130-202 | Every step of every command keeps the invariant that ties file, lock, phases and order together. |
| AuditLog.AppendIsARun | src/audit.rs:158-202 | From any state in which the lock is free: taking it, any writes, and any of the ways to end are steps the machine allows, and they lead to the record appended, the file as it was, or the part written when it cannot be cut off. |
| AuditLog.EmittedIsLogged | src/main.rs:760-768 | Whoever holds the lock, the original and all that finished commands left, the records of all results given so far among it, are the beginning of the file. |
| AuditLog.LogReadsBack | src/audit.rs:112-130 | A log of one-line records reads back, line by line, as those records in order. |
| AuditLines.PrintIsOneLine | src/audit.rs:106-111 | A record as serde_json prints it has no line break, whatever the texts in it contain. |
| AuditLines.JsonLogReadsBack | src/audit.rs:106-130 | So a log of JSON records reads back as those records. |
| Config.SubstituteString | src/config.rs:830-857 | The loop over the pieces computes the substitution, including both failures of the environment. |
| Config.QuotingIsIdentity | src/config.rs:830-857 | In the environment where each name stands for its own reference, substitution is the identity on every string. |
| Config.ReferencesDecide | src/config.rs:830-861 | A string is the same under every environment exactly when no well-formed reference stands in it. |
| Config.LiteralIsKept | src/config.rs:830-857 | No environment changes a string without an opening brace pair. |
| ConfigCheck.RejectEnvVarsInPolicy | src/config.rs:650-741 | The walk over the raw tree, with its early returns, passes exactly when no string that stands on a policy path has an opening brace pair. |
| ConfigDecode.DecodeCommutes | src/config.rs:287-295 | Decoding after substitution and before it succeed together, and every text of the decoded policy is the substituted text. |
| ConfigTexts.WrittenIsDecoded | src/config.rs:7-231 | Every configuration written out field by field, each under its own name, is decoded as exactly what was written. |
| ConfigDecode.SamePolicy | src/config.rs:157-231 | Configurations of one policy have the same validator, guardrail, pii and limits, directories, secret sources and audit settings, connection by connection. |
| ConfigDecode.LoadedNamesOneSource | src/config.rs:136-155 | Every secret of a configuration that loads is written down or names exactly one of keychain, env and command. |
| ConfigDecode.DecodesAsWritten | src/config.rs:287-295 | Under any environment in which substitution succeeds the configuration decodes exactly when it decodes as it is written, and the policies correspond text by text. Nothing is said of the later checks. |
| ConfigDecode.EnvironmentsAgreeExactly | src/config.rs:287-345 | Whatever the later checks let pass, no two environments leave different policies, if and only if no well-formed reference stands in the policy that the file decodes to as it is written. |
| ConfigDecode.EnvironmentsAgree | src/config.rs:640-741 | So when the policy sections are tables, under any later checks: what the raw check looks at covers all that the decoding reads. |
| ConfigModes.ArraySectionIsNotSeen | src/config.rs:707-730 | The promise fails for a section written as an array: pii = [["users.email"], "${MODE}"] passes the raw check, is read in field order, and under the check of the mode two environments leave different modes. |
| ConfigModes.ReachesBothExactly | src/config.rs:830-857 | The environment can turn a string into either of two words with no common letter, none twice in the first, if and only if the string is nothing but references, one of them to a name that occurs once. |
| ConfigModes.ModeIsFreeExactly | src/config.rs:602-627 | For the file of one connection with pii = [["users.email"], text], any text at all, and the mode checked to be deny or mask: two environments leave different policies, if and only if the text is nothing but references, one of them to a name that occurs once. |
| ConfigModes.LaterCheckMaySave | src/validator.rs:190-200 | The mode "${X}mask" of such a section is not steady as written, and yet no environment that loads the file changes the policy, because only mask passes the later check: for a given set of later checks steadiness is sufficient and not necessary. |
| ConfigDecode.Parse | src/config.rs:287-345 | Loading checks, substitutes, decodes, counts the sources of each secret and runs the later checks (any predicate) in that order; with sections as tables the policy that is loaded is the policy that is written, whatever the environment and those checks. |
| Rows.Stream.Fetch | src/engine.rs:1233-1255 | The fetch loop returns the first rows up to the limit, reads no further, and fails exactly when an error is met before. |
| Rows.Cut | src/main.rs:1559-1566 | The cut keeps the first rows and says truncated exactly when there were more or the server stopped early. |
| Rows.Release | src/main.rs:1467-1566 | For every 64-bit limit: with limit + 1 (saturating) fetched, the rows released are exactly the first min(n, limit) of the answer, and truncated is said exactly when n exceeds the limit and the limit is not the largest 64-bit number. |
| Rows.Session.RowsCommand | src/main.rs:1484-1513 | A second pass comes exactly after a refusal for cost with a cheap statement and a second left, is given what the first left of the one budget, and is never followed by a third. |
| Sample.DelimitedReadsBack | src/sample.rs:33-42 | A quoted name lexes as one identifier, that name, whatever characters it has. |
| Sample.SplitQualified | src/sample.rs:48-53 | The split is at the first dot: the schema has none, and the parts make up the argument. |
| Sample.PostgresReadsBack | src/sample.rs:69-76 | The statement reads from exactly the named table, schema and all. |
| Sample.PostgresIsInjective | src/sample.rs:69-76 | No two table arguments share a statement. |
| Sample.SqliteReadsBack | src/sample.rs:59-64 | The same for SQLite, the whole argument as one name. |
| Sample.MysqlReadsBack | src/sample.rs:80-83 | The same for MySQL and MariaDB. |
| Sample.ClickhouseReadsBack | src/sample.rs:90-93 | The same for ClickHouse. |
| SampleMongo.MongoReadsBack | src/sample.rs:100-102 | For every collection of segments over the accepted characters and every positive 64-bit row count (text within the limit), layer 1 accepts the generated text as that collection and the one stage {$sample: {size: n}}. |
| DataGrip.TomlString | src/datagrip.rs:435-451 | The character loop writes each character in its escaped form between quotes. |
| DataGrip.TomlReadsBack | src/datagrip.rs:435-451 | Read as a basic string of TOML v1.0.0 (section "String") the text gives the value back exactly when no U+007F is in it, which is written raw and refused. |
| DataGrip.AliasFor | src/datagrip.rs:360-380 | The alias is the maximal runs of kept characters joined by single dashes, or the fallback when there are none. |
| DataGrip.AliasIsStable | src/datagrip.rs:360-380 | An alias has no leading, trailing or doubled dash and is its own alias. |
| DataGrip.Book.Unique | src/datagrip.rs:382-391 | The counted map gives the k-th name its base, or its base and the number of its occurrence. |
| DataGrip.AliasesAreDistinct | src/datagrip.rs:382-391 | The aliases of a sequence of names are pairwise distinct if and only if no base is the numbered form of a base that occurred before. |
| DataGrip.ProdClashes | src/datagrip.rs:382-391 | The sources named prod, prod, prod-2: the second and the third get the same alias. |

## Left out

- Drivers, sockets, TLS, ssh tunnels, keychains, child processes, file discovery: only their outcomes appear, as nondeterministic replies.
- Messages, hints and warning texts: a refusal is its reason tag; an internal error caught by `catching_panics` cannot happen in a total model.
- Floating point: plan numbers are reals and row counts naturals; the estimator's products are exact until the cut to 64 bits.
- Doubles, decimals, dates and UUIDs: opaque payloads with opaque conversions; that printing and parsing them are inverse is part of what a well-formed value is, because both belong to libraries.
- MongoDB's meaning beyond the stages nyet writes itself: filters and agent-written stages are arbitrary relations, and no claim is made about what a query's result reveals.
- MongoAnswers.DistinctIsExact: says nothing of keys that start with `$`, because the pipeline then refers to a variable and the server decides.
- MongoAnswers.LimitIsAPrefix: a server's stages are only what MongoDB documents of them; a collation, or documents that change while a query runs, is not part of this model.
- MongoReply.CountReadsBack: assumes that a server with something to send sends at least one document in its first batch.
- MongoTexts.FindMeans: speaks of arguments printed as JSON, in any spelling of their strings; the shell's other spellings (bare names, single quotes, comments) are covered by the parser's equality with the grammar only.
- Lists of keys: the source searches sorted tables, the model asks whether a set contains the key; the theorems hold of any lists.
- `resolve_column_origins`: taken as off; the best-effort prepare is not modelled.
- WriteProbe.Server.Probe: a statement whose acknowledgement was lost has run or not by the time the client gives up; one that runs later still is named by the same verdict but is not a separate step.
- AuditLog.LogIsExact: assumes that no process dies while it holds the lock.
- ConfigDecode.Parse: the later checks of numbers, modes, paths and tunnels (src/config.rs:296-345) are an arbitrary predicate; of them only the check of a pii mode is written out, in ConfigModes. Which of several failures is reported first is not modelled.
- ConfigModes.ArraySectionIsNotSeen: that a derived decoder also accepts an array, its elements taken as the fields in order, is what serde documents of structs; only the named fields of each section are modelled.
- DataGrip.Book.Unique: counts are unbounded, not 32 bits wide.
- DataGrip XML, JDBC urls, catalog introspection, per-type cell decoding, output formats, Redis, ClickHouse and SQLite sessions: not part of this model.
- `validator.rs`: only the policy pairs and the mode of its `PiiRules` appear.
