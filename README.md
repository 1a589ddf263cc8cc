# TCC transaction core in Dafny

This project models the coordination core of the TCC (Try-Confirm-Cancel) distributed
transaction framework `tcc-transaction`, and proves properties about it.

- **Status and propagation enums** (`TransactionStatuses`, `Propagations`). These are the
  integer codes, with their decoding and round trips.
- **The @Compensable annotation** (`Compensable`). This covers its defaults, plus the two
  editors that find and inject the `TransactionContext` argument of a compensable method. The
  Default editor uses an index search and an in-place array write. The Nullable editor does
  nothing.
- **The intercepted call** (`MethodContext`). This covers the method context's constructor,
  the role decision table (ROOT, PROVIDER, NORMAL) and the `@UniqueIdentity` lookup.
- **Replay** (`Terminator`, `Participants`). A participant replays its confirm or cancel
  invocation with a context carrying its own xid and the phase code. The replay goes through
  its own editor, into the invocation's shared argument array.
- **The transaction aggregate** (`Transactions`). Its fields, its constructors and its
  mutators are modelled. `commit`/`rollback` walk the participant list in order.
- **The interceptor** (`Interceptor`). It checks legality, then dispatches on the role:
  - ROOT runs begin, then proceed, then commit, or rollback unless the exception is
    delay-cancel.
  - PROVIDER, in TRYING, calls new-begin and then proceeds.
  - PROVIDER, in CONFIRMING or CANCELLING, calls exist-begin and then commits or rolls back.
    It swallows NoExistedTransactionException.
  - Java's `finally` calls `cleanAfterCompletion`.

  The transaction manager and the join point are an `Environment` object. It logs every call
  in a trace. It answers `isTransactionActive`, and decides from a call's position in the trace
  whether that call throws. Each interceptor method is proved against a specification function
  (`RootRun`, `ProviderRun`, `InterceptRun`) that gives the whole trace and the outcome. The
  lemmas then state what the framework promises about those runs.
- **The JDBC repository** (`JdbcRepository`). The table is a map from xid to row. Each
  statement is a function on that map:
  - INSERT, where a duplicate key counts 0;
  - a compare-and-swap UPDATE on VERSION;
  - DELETE;
  - the two SELECT filters.

  The `doFind` SQL text is built as a sequence of literal fragments and `?` placeholders, and
  its parameters are bound with the source's pre-incremented counter. `doFind` selects with the
  filter that statement spells. A SQL failure the table cannot show (a lost connection, an
  integrity constraint of the schema) is a `fault` parameter.

Java `int` and `long` are the newtypes `Int32` and `Int64`. Their `++` wraps around explicitly
(`Inc32`, `Inc64`). Java `null` is `Option.None`, or `Arg.Null` for argument values. A thrown
exception is `Result.Failure`, `Outcome.Fail` or `Completion.Threw`. Paths below are relative
to the repository root.

## Model

| member | source | states |
|---|---|---|
| TransactionStatuses.TransactionStatus.GetId | tcc-transaction-api/src/main/java/org/mengyun/tcctransaction/api/TransactionStatus.java:10-28 | every code lies in 1..3 and decodes back to the same status (`valueOf(getId(s)) == s`) |
| TransactionStatuses.ValueOf | tcc-transaction-api/src/main/java/org/mengyun/tcctransaction/api/TransactionStatus.java:30-39 | TRYING exactly for 1, CONFIRMING exactly for 2, CANCELLING exactly for every other int, including 0 and negatives |
| TransactionStatuses.StatusIds | tcc-transaction-api/src/main/java/org/mengyun/tcctransaction/api/TransactionStatus.java:10-18 | the declared codes are TRYING=1, CONFIRMING=2, CANCELLING=3 |
| TransactionStatuses.GetIdInjective | tcc-transaction-api/src/main/java/org/mengyun/tcctransaction/api/TransactionStatus.java:10-28 | distinct statuses have distinct codes |
| TransactionStatuses.GetIdOfValueOf | tcc-transaction-api/src/main/java/org/mengyun/tcctransaction/api/TransactionStatus.java:26-39 | `getId(valueOf(n)) == n` holds exactly when n is 1, 2 or 3 |
| Propagations.Propagation.Value | tcc-transaction-api/src/main/java/org/mengyun/tcctransaction/api/Propagation.java:10-32 | every value lies in 0..3, and the inverse lookup gives the constant back |
| Propagations.PropagationValues | tcc-transaction-api/src/main/java/org/mengyun/tcctransaction/api/Propagation.java:10-22 | REQUIRED=0, SUPPORTS=1, MANDATORY=2, REQUIRES_NEW=3 |
| Propagations.ValueInjective | tcc-transaction-api/src/main/java/org/mengyun/tcctransaction/api/Propagation.java:10-22 | distinct modes have distinct values |
| Compensable.Defaults | tcc-transaction-api/src/main/java/org/mengyun/tcctransaction/api/Compensable.java:23-65 | an attribute-less annotation has REQUIRED, empty confirm and cancel names, the Default editor, no delay-cancel classes, and both async flags false |
| Compensable.GetTransactionContextParamPosition | tcc-transaction-api/src/main/java/org/mengyun/tcctransaction/api/Compensable.java:121-130 | the result lies in [-1, length); at a result >= 0 the type is TransactionContext; no earlier parameter (none at all for -1) has that type |
| Compensable.DefaultGet | tcc-transaction-api/src/main/java/org/mengyun/tcctransaction/api/Compensable.java:94-102 | no context parameter gives null; otherwise the argument at the position, with the array-index and class-cast exceptions of the cast |
| Compensable.DefaultSet | tcc-transaction-api/src/main/java/org/mengyun/tcctransaction/api/Compensable.java:113-119 | the array afterwards is the old array with the context at the position, or unchanged when there is no position; an exception leaves it unchanged |
| Compensable.Get | tcc-transaction-api/src/main/java/org/mengyun/tcctransaction/api/Compensable.java:67-78 | the Nullable editor's `get` always returns null; the Default editor's is as above |
| Compensable.Set | tcc-transaction-api/src/main/java/org/mengyun/tcctransaction/api/Compensable.java:67-78 | the Nullable editor's `set` leaves the arguments unchanged; the Default editor's is as above |
| Compensable.WithContextFrame | tcc-transaction-api/src/main/java/org/mengyun/tcctransaction/api/Compensable.java:113-119 | `set` writes the context slot only: every other slot keeps its value, and with no slot the array is unchanged |
| Compensable.GetAfterSet | tcc-transaction-api/src/main/java/org/mengyun/tcctransaction/api/Compensable.java:94-119 | with a context position, `get` after a successful `set` returns the context just set |
| Compensable.GetTransactionContextFromArgs | tcc-transaction-api/src/main/java/org/mengyun/tcctransaction/api/Compensable.java:132-144 | the loop, which has no break, yields the last context among the arguments |
| Compensable.LastContextNone | tcc-transaction-api/src/main/java/org/mengyun/tcctransaction/api/Compensable.java:132-144 | the result is null exactly when no argument is a context |
| Compensable.LastContextSome | tcc-transaction-api/src/main/java/org/mengyun/tcctransaction/api/Compensable.java:132-144 | a context found is some argument's, and no later argument is a context |
| MethodContext.NewCompensableMethodContext | tcc-transaction-core/src/main/java/org/mengyun/tcctransaction/interceptor/CompensableMethodContext.java:43-51 | the context holds the join point, its method, the annotation and its propagation, plus whatever the annotation's editor finds; an editor exception escapes |
| MethodContext.MethodRoleOf | tcc-transaction-core/src/main/java/org/mengyun/tcctransaction/interceptor/CompensableMethodContext.java:110-122 | ROOT iff (REQUIRED, not active, no context) or REQUIRES_NEW; PROVIDER iff not REQUIRES_NEW, REQUIRED or MANDATORY, not active, with a context; never CONSUMER; equal to the per-mode decision table, so nothing but the three inputs decides the role |
| MethodContext.NormalCases | tcc-transaction-core/src/main/java/org/mengyun/tcctransaction/interceptor/CompensableMethodContext.java:110-121 | SUPPORTS is always NORMAL; an active transaction gives NORMAL unless REQUIRES_NEW; REQUIRES_NEW is always ROOT |
| MethodContext.GetUniqueIdentity | tcc-transaction-core/src/main/java/org/mengyun/tcctransaction/interceptor/CompensableMethodContext.java:69-85 | the argument at the first parameter annotated @UniqueIdentity, and null when no parameter is |
| Terminator.Invoke | tcc-transaction-core/src/main/java/org/mengyun/tcctransaction/Terminator.java:27-40 | an empty name returns null, with no call and no edit; a failed resolution or editor edits nothing, calls nothing, and gives a SystemException; otherwise the editor writes the context into the argument array, then exactly one call is made on that same array, and its value is returned or its exception wrapped |
| Participants.Participant.WithXid | tcc-transaction-core/src/main/java/org/mengyun/tcctransaction/Participant.java:43-48 | the four-argument constructor stores all four fields as given |
| Participants.Participant.constructor | tcc-transaction-core/src/main/java/org/mengyun/tcctransaction/Participant.java:50-54 | the three-argument constructor leaves the xid unset and stores the rest |
| Participants.Participant.SetXid | tcc-transaction-core/src/main/java/org/mengyun/tcctransaction/Participant.java:56-58 | the xid becomes the one given |
| Participants.Participant.ReplayCalls | tcc-transaction-core/src/main/java/org/mengyun/tcctransaction/Participant.java:63-72 | a replay makes at most one call: one exactly when the phase's method name is non-empty; it carries this participant's xid, the phase code, its own editor and the invocation's own argument array |
| Participants.Participant.Commit | tcc-transaction-core/src/main/java/org/mengyun/tcctransaction/Participant.java:70-72 | invokes the confirm invocation with a CONFIRMING context holding the participant's xid and editor; a normal return logs exactly its replay call; an exception logs at most that call |
| Participants.Participant.Rollback | tcc-transaction-core/src/main/java/org/mengyun/tcctransaction/Participant.java:63-65 | the same, for the cancel invocation with a CANCELLING context |
| Transactions.PlanCallsCount | tcc-transaction-core/src/main/java/org/mengyun/tcctransaction/Transaction.java:137-150 | a commit or rollback makes at most one call per participant, and exactly one each when every method name is non-empty |
| Transactions.PlanCallsSnoc | tcc-transaction-core/src/main/java/org/mengyun/tcctransaction/Transaction.java:138-140 | one more participant in the walk appends exactly that participant's replay calls |
| Transactions.Replay | tcc-transaction-core/src/main/java/org/mengyun/tcctransaction/Transaction.java:138-140 | one iteration of the walk extends the log by this participant's replay calls, or by at most those when it throws |
| Transactions.ReplayAll | tcc-transaction-core/src/main/java/org/mengyun/tcctransaction/Transaction.java:137-150 | a normal end logs every participant's replay calls in list order; an exception at participant k logs those of the first k, plus at most k's own |
| Transactions.Transaction.FromContext | tcc-transaction-core/src/main/java/org/mengyun/tcctransaction/Transaction.java:74-78 | TRYING, BRANCH, the context's xid, retry count 0, version 1, no participants, and the two clock readings as creation and last update time |
| Transactions.Transaction.constructor | tcc-transaction-core/src/main/java/org/mengyun/tcctransaction/Transaction.java:85-101 | TRYING, the given type, a fresh xid, retry count 0, version 1, no participants, and the two clock readings as creation and last update time |
| Transactions.Transaction.Deserialized | tcc-transaction-core/src/main/java/org/mengyun/tcctransaction/Transaction.java:65-67 | the no-argument constructor, as filled in by the serializer, gives exactly the stored state |
| Transactions.Transaction.GetXid | tcc-transaction-core/src/main/java/org/mengyun/tcctransaction/Transaction.java:113-115 | the result equals the stored identifier |
| Transactions.Transaction.EnlistParticipant | tcc-transaction-core/src/main/java/org/mengyun/tcctransaction/Transaction.java:108-110 | appends at the end under any status; the length grows by one, earlier entries stay, and no other field changes |
| Transactions.Transaction.ChangeStatus | tcc-transaction-core/src/main/java/org/mengyun/tcctransaction/Transaction.java:130-132 | any status from any status, and nothing else changes |
| Transactions.Transaction.AddRetriedCount | tcc-transaction-core/src/main/java/org/mengyun/tcctransaction/Transaction.java:156-158 | the retry count goes up by one, with int wrap-around, and nothing else changes |
| Transactions.Transaction.ResetRetriedCount | tcc-transaction-core/src/main/java/org/mengyun/tcctransaction/Transaction.java:160-162 | the retry count is assigned without a guard, and nothing else changes |
| Transactions.Transaction.UpdateVersion | tcc-transaction-core/src/main/java/org/mengyun/tcctransaction/Transaction.java:172-174 | the version goes up by one, with long wrap-around, and nothing else changes |
| Transactions.Transaction.SetVersion | tcc-transaction-core/src/main/java/org/mengyun/tcctransaction/Transaction.java:176-178 | the version is assigned without a guard, and nothing else changes |
| Transactions.Transaction.SetLastUpdateTime | tcc-transaction-core/src/main/java/org/mengyun/tcctransaction/Transaction.java:184-186 | the last update time is assigned, and nothing else changes |
| Transactions.Transaction.UpdateTime | tcc-transaction-core/src/main/java/org/mengyun/tcctransaction/Transaction.java:192-194 | the last update time becomes the clock reading, and nothing else changes |
| Transactions.Transaction.Commit | tcc-transaction-core/src/main/java/org/mengyun/tcctransaction/Transaction.java:137-141 | the transaction is unchanged; a normal end logs each participant's confirm replay once, in list order; a participant's exception stops the walk after a prefix |
| Transactions.Transaction.Rollback | tcc-transaction-core/src/main/java/org/mengyun/tcctransaction/Transaction.java:146-150 | the same, with each participant's cancel replay |
| Interceptor.Finally | tcc-transaction-core/src/main/java/org/mengyun/tcctransaction/interceptor/CompensableTransactionInterceptor.java:106-108 | the cleanup call comes after everything the try block did; when it does not throw, the try block's outcome stands |
| Interceptor.RootCleansUpOnceAndLast | tcc-transaction-core/src/main/java/org/mengyun/tcctransaction/interceptor/CompensableTransactionInterceptor.java:106-108 | on every ROOT path, `cleanAfterCompletion` is the last manager call and is made exactly once; it receives the transaction exactly when `begin` returned |
| Interceptor.RootCommitsOnlyOnSuccess | tcc-transaction-core/src/main/java/org/mengyun/tcctransaction/interceptor/CompensableTransactionInterceptor.java:89-105 | a ROOT run commits, once and right after `proceed`, exactly when both `begin` and the business method returned; a run that commits never rolls back |
| Interceptor.RootSuccess | tcc-transaction-core/src/main/java/org/mengyun/tcctransaction/interceptor/CompensableTransactionInterceptor.java:89-109 | a quiet run with a returning body is begin, proceed, commit(asyncConfirm), cleanup, and yields the body's value |
| Interceptor.RootFailure | tcc-transaction-core/src/main/java/org/mengyun/tcctransaction/interceptor/CompensableTransactionInterceptor.java:95-103 | when the body throws, there is no commit, and rollback(asyncCancel) is called iff the exception is not delay-cancel; the same exception is rethrown unless rollback or cleanup throws |
| Interceptor.ProviderCleansUpOnceAndLast | tcc-transaction-core/src/main/java/org/mengyun/tcctransaction/interceptor/CompensableTransactionInterceptor.java:150-152 | on every PROVIDER path, `cleanAfterCompletion` is the last call and is made once; it receives the transaction exactly when new-begin or exist-begin returned |
| Interceptor.ProviderTrying | tcc-transaction-core/src/main/java/org/mengyun/tcctransaction/interceptor/CompensableTransactionInterceptor.java:126-129 | TRYING with a returning new-begin makes the calls new-begin, proceed, cleanup, and answers what the business method does |
| Interceptor.ProviderSettles | tcc-transaction-core/src/main/java/org/mengyun/tcctransaction/interceptor/CompensableTransactionInterceptor.java:130-154 | CONFIRMING and CANCELLING never proceed; they begin with exist-begin, and once it finds the branch the run is exactly exist-begin, commit(asyncConfirm) or rollback(asyncCancel) respectively, then cleanup; the opposite phase call is never made; they return the null value unless a non-NoExisted exception or the cleanup throws |
| Interceptor.SettleCalls | tcc-transaction-core/src/main/java/org/mengyun/tcctransaction/interceptor/CompensableTransactionInterceptor.java:130-148 | a settling run makes only the lookup, the phase call and the cleanup, and exactly those three in that order once the lookup returns; it returns the null value, or throws an exception that is not NoExisted unless the cleanup threw it |
| Interceptor.ProviderAlreadySettled | tcc-transaction-core/src/main/java/org/mengyun/tcctransaction/interceptor/CompensableTransactionInterceptor.java:135-137 | when exist-begin throws NoExisted, the run is lookup then cleanup(null), with no commit or rollback, and answers the null value |
| Interceptor.CompensableTransactionInterceptor.SetTransactionManager | tcc-transaction-core/src/main/java/org/mengyun/tcctransaction/interceptor/CompensableTransactionInterceptor.java:35-37 | replaces the manager and keeps the delay-cancel set |
| Interceptor.CompensableTransactionInterceptor.SetDelayCancelExceptions | tcc-transaction-core/src/main/java/org/mengyun/tcctransaction/interceptor/CompensableTransactionInterceptor.java:39-41 | adds to the configured classes and never removes one |
| Interceptor.CompensableTransactionInterceptor.AllDelayCancelExceptions | tcc-transaction-core/src/main/java/org/mengyun/tcctransaction/interceptor/CompensableTransactionInterceptor.java:85-87 | a ROOT call's delay set is exactly the union of the interceptor's classes and the annotation's |
| Interceptor.CompensableTransactionInterceptor.IsDelayCancelException | tcc-transaction-core/src/main/java/org/mengyun/tcctransaction/interceptor/CompensableTransactionInterceptor.java:157-172 | true iff some class in the set is a supertype of the throwable's class or of its root cause's class |
| Interceptor.CompensableTransactionInterceptor.InterceptCompensableMethod | tcc-transaction-core/src/main/java/org/mengyun/tcctransaction/interceptor/CompensableTransactionInterceptor.java:49-71 | the manager trace it adds and the outcome it gives are those of `InterceptRun` for the call's arguments |
| Interceptor.CompensableTransactionInterceptor.Dispatch | tcc-transaction-core/src/main/java/org/mengyun/tcctransaction/interceptor/CompensableTransactionInterceptor.java:56-70 | the legality check, then the role switch, adding the trace and giving the outcome of `DispatchRun` |
| Interceptor.CompensableTransactionInterceptor.RootMethodProceed | tcc-transaction-core/src/main/java/org/mengyun/tcctransaction/interceptor/CompensableTransactionInterceptor.java:80-110 | adds the trace and gives the outcome of `RootRun`, for the unique identity of the arguments and the union delay set |
| Interceptor.CompensableTransactionInterceptor.RootTry | tcc-transaction-core/src/main/java/org/mengyun/tcctransaction/interceptor/CompensableTransactionInterceptor.java:89-105 | the inner try of a ROOT call: proceed, then commit, or rollback unless delay-cancel, as `TryRun` says |
| Interceptor.CompensableTransactionInterceptor.ProviderMethodProceed | tcc-transaction-core/src/main/java/org/mengyun/tcctransaction/interceptor/CompensableTransactionInterceptor.java:119-155 | adds the trace and gives the outcome of `ProviderRun`, for the status code of the propagated context |
| Interceptor.CompensableTransactionInterceptor.Settle | tcc-transaction-core/src/main/java/org/mengyun/tcctransaction/interceptor/CompensableTransactionInterceptor.java:130-147 | the try block of a CONFIRMING or CANCELLING call; it holds a transaction for the cleanup exactly when exist-begin returned |
| Interceptor.EditorFailureFirst | tcc-transaction-core/src/main/java/org/mengyun/tcctransaction/interceptor/CompensableTransactionInterceptor.java:51-54 | an editor exception escapes before any manager call |
| Interceptor.IllegalContextStops | tcc-transaction-core/src/main/java/org/mengyun/tcctransaction/interceptor/CompensableTransactionInterceptor.java:54-58 | an illegal context throws SystemException right after `isTransactionActive`, with no begin, proceed or cleanup |
| Interceptor.NormalJustProceeds | tcc-transaction-core/src/main/java/org/mengyun/tcctransaction/interceptor/CompensableTransactionInterceptor.java:68-69 | a NORMAL call is `isTransactionActive` then `proceed`, and gives the business method's outcome |
| JdbcRepository.DomainColumn | tcc-transaction-core/src/main/java/org/mengyun/tcctransaction/repository/JdbcTransactionRepository.java:102-104 | the DOMAIN column is written exactly when the domain is non-empty, and then holds the domain |
| JdbcRepository.NewRow | tcc-transaction-core/src/main/java/org/mengyun/tcctransaction/repository/JdbcTransactionRepository.java:91-104 | the inserted row carries the transaction's status code, retry count, version, times and serialized content, and lies in the repository's domain |
| JdbcRepository.Insert | tcc-transaction-core/src/main/java/org/mengyun/tcctransaction/repository/JdbcTransactionRepository.java:106-110 | a new key adds exactly that row and counts 1; a duplicate key changes nothing and counts 0 |
| JdbcRepository.CompareAndSet | tcc-transaction-core/src/main/java/org/mengyun/tcctransaction/repository/JdbcTransactionRepository.java:142-164 | a row changes only when its key, domain and VERSION match the version read; then it gets the new columns and VERSION+1, and every other row and column stays; otherwise it counts 0 and changes nothing |
| JdbcRepository.Delete | tcc-transaction-core/src/main/java/org/mengyun/tcctransaction/repository/JdbcTransactionRepository.java:190-204 | removes exactly the row with that key and domain, counting 1, or nothing, counting 0; no other row changes |
| JdbcRepository.FindAsWrittenIgnoresDomain | tcc-transaction-core/src/main/java/org/mengyun/tcctransaction/repository/JdbcTransactionRepository.java:287-297 | with two identifiers, the statement as built selects another domain's row under the first identifier |
| JdbcRepository.FindWhereKeepsDomain | tcc-transaction-core/src/main/java/org/mengyun/tcctransaction/repository/JdbcTransactionRepository.java:287-297 | with the intended filter, every row found is in the repository's domain and among the identifiers asked for |
| JdbcRepository.FindAsWrittenAgrees | tcc-transaction-core/src/main/java/org/mengyun/tcctransaction/repository/JdbcTransactionRepository.java:287-297 | for at most one identifier, as `doFindOne` passes, or for an unset domain, the statement as built means what was intended |
| JdbcRepository.CompareAndSetRace | tcc-transaction-core/src/main/java/org/mengyun/tcctransaction/repository/JdbcTransactionRepository.java:143-164 | of two writers that read the same version, the second affects no row once the first has updated |
| JdbcRepository.CreateThenLoad | tcc-transaction-core/src/main/java/org/mengyun/tcctransaction/repository/JdbcTransactionRepository.java:325-335 | a created row reads back with the transaction's status, version, retry count and last update time |
| JdbcRepository.UpdateThenLoad | tcc-transaction-core/src/main/java/org/mengyun/tcctransaction/repository/JdbcTransactionRepository.java:128-174 | after an update that took effect, the row reads back with the in-memory (incremented) version, status, time and retry count |
| JdbcRepository.DeleteThenAbsent | tcc-transaction-core/src/main/java/org/mengyun/tcctransaction/repository/JdbcTransactionRepository.java:182-212 | a deleted row is found by neither SELECT afterwards |
| JdbcRepository.JdbcTransactionRepository.GetTableName | tcc-transaction-core/src/main/java/org/mengyun/tcctransaction/repository/JdbcTransactionRepository.java:371-373 | TCC_TRANSACTION followed by the suffix, and plain TCC_TRANSACTION when there is no suffix |
| JdbcRepository.JdbcTransactionRepository.DoCreate | tcc-transaction-core/src/main/java/org/mengyun/tcctransaction/repository/JdbcTransactionRepository.java:78-120 | 1 with the new row added; 0 with the table unchanged on a duplicate key or on any other integrity-constraint violation; TransactionIOException with the table unchanged on any other failure |
| JdbcRepository.JdbcTransactionRepository.DoUpdate | tcc-transaction-core/src/main/java/org/mengyun/tcctransaction/repository/JdbcTransactionRepository.java:128-174 | the in-memory time and version advance first and stay advanced when 0 rows match; the result is the compare-and-swap's count; a failure restores both in-memory fields, leaves the table, and raises TransactionIOException |
| JdbcRepository.JdbcTransactionRepository.DoDelete | tcc-transaction-core/src/main/java/org/mengyun/tcctransaction/repository/JdbcTransactionRepository.java:182-212 | the count and table of `Delete`, or TransactionIOException with the table unchanged |
| JdbcRepository.JdbcTransactionRepository.Query | tcc-transaction-core/src/main/java/org/mengyun/tcctransaction/repository/JdbcTransactionRepository.java:312-314 | the result set holds each selected row exactly once, in some order |
| JdbcRepository.JdbcTransactionRepository.ConstructTransactions | tcc-transaction-core/src/main/java/org/mengyun/tcctransaction/repository/JdbcTransactionRepository.java:325-335 | one fresh transaction per row, in row order: the stored object with status, last update time, version and retry count taken from their columns |
| JdbcRepository.JdbcTransactionRepository.BuildFindSql | tcc-transaction-core/src/main/java/org/mengyun/tcctransaction/repository/JdbcTransactionRepository.java:284-297 | appending a condition per identifier and deleting the last two characters gives the conditions joined by OR, then the domain filter when set |
| JdbcRepository.JdbcTransactionRepository.FindSqlPlaceholders | tcc-transaction-core/src/main/java/org/mengyun/tcctransaction/repository/JdbcTransactionRepository.java:284-310 | the text has 2 placeholders per identifier, plus 1 when the domain is set |
| JdbcRepository.JdbcTransactionRepository.BindFindParameters | tcc-transaction-core/src/main/java/org/mengyun/tcctransaction/repository/JdbcTransactionRepository.java:301-310 | positions 1..2n hold each identifier's global id then its branch qualifier, and position 2n+1 holds the domain when set; no other position is bound, so the count matches the placeholders |
| JdbcRepository.JdbcTransactionRepository.DoFind | tcc-transaction-core/src/main/java/org/mengyun/tcctransaction/repository/JdbcTransactionRepository.java:270-323 | no identifiers gives an empty list without a query; otherwise the statement is the fragments built for that many identifiers, its bound positions are exactly its placeholders, holding the identifiers' ids and then the domain, and the result is exactly the rows the statement as built selects, each loaded once, or TransactionIOException |
| JdbcRepository.JdbcTransactionRepository.DoFindIntended | tcc-transaction-core/src/main/java/org/mengyun/tcctransaction/repository/JdbcTransactionRepository.java:287-323 | the lookup with the domain filter applied to every identifier: no identifiers gives an empty list; otherwise exactly the domain's rows under those identifiers, each loaded once, or TransactionIOException |
| JdbcRepository.JdbcTransactionRepository.DoFindOne | tcc-transaction-core/src/main/java/org/mengyun/tcctransaction/repository/JdbcTransactionRepository.java:214-222 | through `doFind` with one identifier, a transaction exactly when a row of the domain has this key, loaded from that row, and null otherwise |
| JdbcRepository.JdbcTransactionRepository.DoFindAllUnmodifiedSince | tcc-transaction-core/src/main/java/org/mengyun/tcctransaction/repository/JdbcTransactionRepository.java:231-268 | exactly the rows last updated strictly before the date, with IS_DELETE 0 and in the domain when set, each loaded once, or TransactionIOException |

## Left out

- Reflection and AOP are left out: `FactoryBuilder`, `getMethod`, `Method.invoke`, `getCompensableMethod` and `ProceedingJoinPoint`. They are a `Registry` that resolves and answers calls, and a `JoinPoint` whose body's outcome is given.
- `TransactionManager` is the `Environment` trace and its throw oracle. Its internals, including the async thread pools behind the async flags, are not modelled.
- `TransactionUtils.isLegalTransactionContext`, `ExceptionUtils.getRootCause`, `ReflectionUtils.getNullValue` and `Class.isAssignableFrom` are abstract functions. The root cause is a field of the modelled throwable.
- TransactionXid.java, TransactionContext.java, InvocationContext.java and TransactionType.java are not part of this model. Only the fields the core reads are kept. `TransactionType` codes are not modelled.
- Logging and the JSON dump of the transaction in the ROOT rollback path are left out.
- `java.util.Date`: times are integers from a clock passed in. The time-of-day truncation of `resultSet.getDate(7)` in `constructTransactions` is not modelled.
- The Kryo serializer is an abstract pair of functions whose contents are not inspected. `Deserialized` takes the decoded state directly.
- JDBC plumbing is left out: connections, statements, closing, and iterating the `ResultSet`. Every SQL failure the table does not show is a `fault` parameter on the call; for `doCreate` it says whether the failure is an integrity-constraint violation.
- The INSERT, UPDATE and DELETE texts are not built as strings. Only `doFind`'s text and bindings are, because that is where the placeholder count and the WHERE grouping matter.
- The domain and table-suffix setters and `setSerializer`/`setDataSource` are not modelled. Those values are constructor parameters of the repository.
- The table is keyed by (global id, branch qualifier) with the domain held in the row. This means two domains cannot store the same identifier; the schema's key is taken to be the identifier pair. A new row's IS_DELETE is modelled as 0, taken to be the column default, since the repository never writes it.
- `JdbcRepository.CompareAndSet`: when VERSION is already the largest BIGINT, `VERSION+1` is modelled as a failed statement. This follows how SQL databases treat an out-of-range value. The in-memory `updateVersion` wraps around, as Java's `long` does.
- The `attachments` map and the `volatile` modifier of `retriedCount` are left out. They play no part in a sequential model. The race between two writers is modelled only as two calls interleaved in sequence (`CompareAndSetRace`).
- The recovery sweep and any status state machine are left out. `changeStatus` has no guard, and the model claims none.
- Participant's no-argument constructor is left out. It exists for the serializer, and `Deserialized` plays that part for transactions.
- `Transactions.Transaction.FromContext` requires a context whose xid is set. Java would store a null xid, which every later use of the transaction dereferences.
- `Transactions.Transaction.GetXid` returns the identifier itself. `Xid` is a value, so the clone Java hands out is indistinguishable from it, and no caller can alter the stored identifier through it.
- `Interceptor.CompensableTransactionInterceptor.Dispatch`, `RootTry` and `Settle` are the switch of `interceptCompensableMethod`, the inner try of `rootMethodProceed`, and the CONFIRMING/CANCELLING try blocks of `providerMethodProceed`. They are written as separate methods, and their callers are proved against the same specification functions.
- The SQL tokens treat only an explicit `Placeholder` as a `?`. A table suffix containing a question mark is not counted as one.

## Findings

| source | as written | input that shows it | evidently intended | confidence | as-written member | corrected member |
|---|---|---|---|---|---|---|
| tcc-transaction-core/src/main/java/org/mengyun/tcctransaction/repository/JdbcTransactionRepository.java:287-297 | `doFind` appends ` AND DOMAIN = ?` after `( .. ) OR ( .. )`. Since AND binds tighter than OR, the domain filter guards only the last identifier pair. | two identifiers x1, x2, repository domain "A", a row of domain "B" stored under x1: the row is selected | every identifier is filtered by the domain, i.e. `(p1 OR ... OR pn) AND DOMAIN = ?` | not executed | JdbcRepository.JdbcTransactionRepository.DoFind, JdbcRepository.FindAsWrittenIgnoresDomain | JdbcRepository.JdbcTransactionRepository.DoFindIntended, JdbcRepository.FindWhereKeepsDomain |
