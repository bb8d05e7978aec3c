# Transactional event delivery in fastapi-auth-boilerplate, in Dafny

This project models the event pipeline of the fastapi-auth-boilerplate
service and the small domain rules that feed it. It also proves properties of
the model.

- **Staging.** An aggregate (`Account`, `User`) queues domain events as it
  changes. A repository enrols the aggregate in the unit of work's
  `AggregateRegistry`. `commit` drains every enrolled aggregate and writes one
  outbox row per event, under the event registry's name and with the event's
  `to_dict` payload. It then commits the session and clears the registry.
- **Delivery.** The `OutboxProcessor` claims due PENDING rows, oldest first
  and at most a batch at a time. It rebuilds each event through the name↔class
  registry and publishes it on the in-memory domain event bus. It then records
  the outcome on the row:
  - PROCESSED on success;
  - otherwise one more attempt and a retry after `2**attempts * 10` seconds;
  - FAILED (dead-lettered) at the fifth failed attempt.
- **Integration messaging.** The Kafka producer sends an integration event's
  JSON with an `event_type` header. The consumer routes each message on that
  header, skips unknown types and logs handler errors.
- **Supporting rules.**
  - the CQRS dispatch table;
  - the exception-metadata registry;
  - the `Account` lifecycle;
  - the password and username validators;
  - the event `to_dict`/`from_dict` round trips;
  - the guard order of profile creation, password change and profile reads.

Collaborators the code calls but does not implement are parameters, not
assumptions:

- UUID text form, JSON, UTF-8 and the email validator (`Externals.Codecs`,
  whose round-trip laws are the ghost predicate `Lawful`);
- the password hasher (`Externals.Hasher`, with `Sound`);
- handler factories and handlers;
- the database's answer to a session commit;
- the broker's answer to a send;
- the clock: one `now` per batch or per command.

Python exceptions are `Result`/`Outcome` values; each error carries the exception it stands for.
Aggregates and the objects that the source updates in place are classes.
Their methods' `modifies` clauses name exactly what changes.
Python's `Account(AggregateRoot)` inheritance is rendered by composition: the account owns an
`AggregateRoot` object (`root`) that carries its identity and its event queue.
`Account.__eq__`/`__hash__` and `User.__eq__`/`__hash__` coincide with
`Entity`'s, so they are modelled once, by `Primitives.SameEntity` over
an identity that records the entity's class.

## Model

| member | source | states |
|---|---|---|
| Primitives.EqualEntitiesHashAlike | src/shared/domain/primitives.py:17-23 | entities equal under `__eq__` (same class, same id) have equal `__hash__` |
| Primitives.SameEntityIsEquivalence | src/shared/domain/primitives.py:17-20 | entity equality is reflexive, symmetric and transitive, and looks only at class and id |
| Primitives.AggregateRoot.constructor | src/shared/domain/primitives.py:26-28 | a new aggregate has an empty event queue |
| Primitives.AggregateRoot.AddEvent | src/shared/domain/primitives.py:30-31 | the event is appended at the end of the queue; nothing else changes |
| Primitives.AggregateRoot.PullEvents | src/shared/domain/primitives.py:33-36 | returns exactly the queued events in insertion order and leaves the queue empty |
| Primitives.AggregateRoot.ClearEvents | src/shared/domain/primitives.py:38-39 | empties the queue |
| Primitives.DrainTwice | src/shared/domain/primitives.py:33-36 | the drain is destructive: a second `pull_events` right after the first returns `[]` |
| AggregateRegistry.AddedKeepsDistinct | src/shared/domain/registry.py:20-24 | adding to the set keeps its members pairwise unequal as entities, keeps every member, and leaves an entity equal to the added one in the set |
| AggregateRegistry.AddedIsIdempotent | src/shared/domain/registry.py:20-24 | registering the same aggregate twice leaves the set as registering it once |
| AggregateRegistry.FlattenAppend | src/shared/domain/registry.py:26-33 | the drained list over two consecutive runs of the iteration is the concatenation of their drained lists |
| AggregateRegistry.QueueStaysContiguous | src/shared/domain/registry.py:30-32 | each aggregate's queue appears in the drained list whole and in its own order, between the queues of the aggregates iterated before and after it |
| AggregateRegistry.DrainOfOneAggregate | src/shared/domain/registry.py:26-33 | with one registered aggregate, `pull_events` returns exactly that aggregate's queue |
| AggregateRegistry.AggregateRegistry.constructor | src/shared/domain/registry.py:8-10 | the context starts with no registered aggregates |
| AggregateRegistry.AggregateRegistry.Register | src/shared/domain/registry.py:20-24 | a non-aggregate (`null`) is ignored; otherwise set `add` under entity equality, keeping members distinct |
| AggregateRegistry.AggregateRegistry.PullEvents | src/shared/domain/registry.py:26-33 | returns the concatenation of every registered aggregate's drained queue in some enumeration of the set, empties every queue, and keeps the set |
| AggregateRegistry.AggregateRegistry.Clear | src/shared/domain/registry.py:35-37 | the registry forgets every aggregate |
| BaseRepository.SqlAlchemyRepository.Register | src/shared/infrastructure/database/base_repository.py:18-29 | returns its argument; a present aggregate is added to the registry, `None` leaves it untouched |
| UnitOfWork.OutboxRowsAppend | src/shared/infrastructure/database/base_uow.py:45-49 | one more event adds exactly one more row at the end, named by the registry and carrying `to_dict` |
| UnitOfWork.SqlAlchemyUnitOfWork.constructor | src/shared/infrastructure/database/base_uow.py:16-23 | a new unit of work has no session and nothing staged |
| UnitOfWork.SqlAlchemyUnitOfWork.Enter | src/shared/infrastructure/database/base_uow.py:25-27 | opens a fresh, empty session |
| UnitOfWork.SqlAlchemyUnitOfWork.Rollback | src/shared/infrastructure/database/base_uow.py:55-60 | without a session raises `SessionNotInitializedException` and changes nothing; otherwise discards what the session staged |
| UnitOfWork.SqlAlchemyUnitOfWork.Exit | src/shared/infrastructure/database/base_uow.py:29-36 | rolls back only when an exception is propagating; a normal exit neither rolls back nor commits |
| UnitOfWork.SqlAlchemyUnitOfWork.AddOutboxRows | src/shared/infrastructure/database/base_uow.py:45-49 | stages exactly one row per event, in event order, with `event_type = get_name(type(event))` and `payload = to_dict()` |
| UnitOfWork.SqlAlchemyUnitOfWork.Commit | src/shared/infrastructure/database/base_uow.py:38-53 | without a session raises and changes nothing; otherwise drains every aggregate first; on a successful session commit the outbox gains the staged rows plus one row per drained event and the registry is cleared; on a failed one the outbox and registry are unchanged and the drained events are not re-queued |
| OutboxRecords.StatusValueIsInjective | src/shared/infrastructure/outbox/mixin.py:10-15 | the three stored status strings are distinct |
| OutboxProcessor.NewRecordIsClaimable | src/shared/infrastructure/outbox/mixin.py:36-60 | a new row is PENDING with 0 attempts, no error and no processing time, scheduled and occurred now, so it can be claimed at once |
| OutboxProcessor.BackoffStrictlyIncreasing | src/shared/infrastructure/outbox.py:113-117 | the retry delay `2**attempts * 10` grows strictly with the attempt count |
| OutboxProcessor.RetryDelays | src/shared/infrastructure/outbox.py:113-117 | the delays after failures 1 to 4 are 20, 40, 80 and 160 seconds |
| OutboxProcessor.ClaimStep | src/shared/infrastructure/outbox.py:73-82 | appending the earliest due PENDING row not yet claimed keeps the claimed list distinct, due, PENDING and in ascending `occurred_at` |
| OutboxProcessor.EarliestDue | src/shared/infrastructure/outbox.py:76-79 | returns a due PENDING row not yet claimed whose `occurred_at` is minimal, or -1 exactly when there is none |
| OutboxProcessor.Claim | src/shared/infrastructure/outbox.py:73-84 | at most `batch_size` distinct rows, all PENDING and due, in ascending `occurred_at`; a due row is left out only when the batch is full of rows that occurred no later |
| OutboxProcessor.Decode | src/shared/infrastructure/outbox.py:91-92 | a rebuilt event's class has the row's `event_type` as its registered name |
| OutboxProcessor.Deliver | src/shared/infrastructure/outbox.py:90-94 | a row whose `event_type` no registered class carries fails with `EventReconstructionException` for that name, whatever the bus does; a success means an event of a class registered under the row's name was published successfully |
| OutboxProcessor.DeliverWrittenRow | src/shared/infrastructure/outbox.py:90-94 | a row the unit of work writes for an event is delivered exactly as that event is published, when its class is registered under a name no other class uses |
| OutboxProcessor.AfterDispatch | src/shared/infrastructure/outbox.py:96-117 | success sets PROCESSED and `processed_at = now`, changing nothing else; failure adds exactly one attempt and records the error, then dead-letters as FAILED at 5 attempts without rescheduling, or reschedules at `now + 2**attempts * 10` |
| OutboxProcessor.AfterDispatchKeepsWellFormed | src/shared/infrastructure/outbox.py:96-117 | dispatch keeps a row consistent: PROCESSED iff a processing time is set, FAILED iff 5 attempts, an error iff an attempt failed |
| OutboxProcessor.EvolvesIsPreorder | src/shared/infrastructure/outbox.py:96-117 | "content and creation time fixed, attempts only grow, PROCESSED and FAILED final" is reflexive and transitive |
| OutboxProcessor.AfterDispatchEvolves | src/shared/infrastructure/outbox.py:96-117 | dispatch only moves a row forward: status only leaves PENDING, attempts never decrease |
| OutboxProcessor.DeadLetterAfterMaxAttempts | src/shared/infrastructure/outbox.py:103-117 | a row failing every time stays PENDING through four failures, each rescheduled `2**k * 10` seconds later, and is FAILED after the fifth |
| OutboxProcessor.RetryThenSuccess | src/shared/infrastructure/outbox.py:96-117 | a row that fails once is claimable at its rescheduled time and, on success there, is PROCESSED with one attempt and the error kept |
| OutboxProcessor.OutboxRowsDecode | src/shared/infrastructure/outbox.py:91-92 | every row the unit of work writes decodes back to the event it was written for, when the event's class is registered under a name no other class uses |
| OutboxProcessor.EmptyClaimIffNothingDue | src/shared/infrastructure/outbox.py:73-86 | with a positive batch size the claim is empty exactly when no row is PENDING and due |
| OutboxProcessor.RoundKeepsRows | src/shared/infrastructure/outbox.py:89-121 | after a batch every row that was consistent still is, and every row has only moved forward |
| OutboxProcessor.BatchIsRound | src/shared/infrastructure/outbox.py:131-135 | a claimed and delivered batch whose sleep decision is taken on the batch size is a round: it sleeps iff its claim was empty, and with a positive batch size iff no row was due |
| OutboxProcessor.Processor.constructor | src/shared/infrastructure/outbox.py:57-69 | keeps its collaborators; the batch size defaults to 20 |
| OutboxProcessor.Processor.ProcessBatch | src/shared/infrastructure/outbox.py:71-126 | claims as `Claim` does, returns the number claimed (not the number succeeded), rewrites every claimed row by its own delivery's outcome whatever the other rows' outcomes, and leaves every other row as it was |
| OutboxProcessor.Processor.RunForever | src/shared/infrastructure/outbox.py:128-135 | the ghost `states` run from the old outbox to the new one; round `k` claims `claims[k]` from `states[k]` as the claim query does, delivers it with that round's bus to reach `states[k + 1]`, and sleeps iff its claim was empty, that is, with a positive batch size, iff no row was due; every row stays consistent and only moves forward |
| EventRegistry.NameIndexDomain | src/shared/infrastructure/messaging/event_registry.py:28-33 | a name is known iff some registered class has it, and it maps to a class of that name |
| EventRegistry.ClassIndexContents | src/shared/infrastructure/messaging/event_registry.py:28-33 | a class is known iff it was registered, and it maps to its own `__name__` |
| EventRegistry.NameResolvesToLastRegistration | src/shared/infrastructure/messaging/event_registry.py:30-33 | a name resolves to the class registered under it last |
| EventRegistry.RoundTrip | src/shared/infrastructure/messaging/event_registry.py:35-53 | `get_class(get_name(C)) == C` for a registered class whose name no other registered class shares |
| EventRegistry.ReRegisterIsIdempotent | src/shared/infrastructure/messaging/event_registry.py:30-33 | registering a class again changes neither dictionary |
| EventRegistry.SameNameLastWins | src/shared/infrastructure/messaging/event_registry.py:30-33 | of two classes with the same name, the one registered last wins |
| EventRegistry.DomainEventRegistry.constructor | src/shared/infrastructure/messaging/event_registry.py:19-26 | registers the given list in order; `None` or `[]` gives an empty registry |
| EventRegistry.DomainEventRegistry.Register | src/shared/infrastructure/messaging/event_registry.py:28-33 | maps the class's name to the class and the class to its name |
| EventRegistry.DomainEventRegistry.GetClass | src/shared/infrastructure/messaging/event_registry.py:35-49 | succeeds iff some registered class has the name, returning a class of that name; otherwise `EventReconstructionException("Event <name> not registered.")` |
| EventRegistry.DomainEventRegistry.GetName | src/shared/infrastructure/messaging/event_registry.py:51-53 | never fails; the class's `__name__` whether registered or not |
| EventRegistry.GetClassOfGetName | src/shared/infrastructure/messaging/event_registry.py:35-53 | the round trip on the registry object itself |
| EventBus.HandlerFailuresAreIsolated | src/shared/infrastructure/messaging/event_bus.py:43-50 | when every factory succeeds nothing escapes and every factory's handler runs exactly once, in list order, whatever the handlers do |
| EventBus.FactoryFailureEscapes | src/shared/infrastructure/messaging/event_bus.py:43-47 | a factory's exception escapes `publish`; the handlers before it ran, none after it |
| EventBus.FanOutStep | src/shared/infrastructure/messaging/event_bus.py:43-50 | one loop iteration: a failing factory ends the fan-out, a working one invokes its handler and continues |
| EventBus.InMemoryDomainEventBus.constructor | src/shared/infrastructure/messaging/event_bus.py:21-30 | a `None` subscriber map behaves as an empty one |
| EventBus.InMemoryDomainEventBus.Publish | src/shared/infrastructure/messaging/event_bus.py:32-51 | invokes the factories bound to the event's exact class as the fan-out describes; with none it invokes nothing and returns normally |
| EventProducer.Encode | src/shared/infrastructure/messaging/event_producer.py:33-34 | the message goes to the given topic; its body decodes to `to_dict()`; it has exactly one header, `event_type`, which decodes to the class name |
| EventProducer.KafkaIntegrationEventProducer.constructor | src/shared/infrastructure/messaging/event_producer.py:16-18 | a new producer has no client |
| EventProducer.KafkaIntegrationEventProducer.Start | src/shared/infrastructure/messaging/event_producer.py:20-23 | creates and starts the client |
| EventProducer.KafkaIntegrationEventProducer.Stop | src/shared/infrastructure/messaging/event_producer.py:25-28 | a no-op without a client; otherwise stops it without unsetting the field |
| EventProducer.KafkaIntegrationEventProducer.Publish | src/shared/infrastructure/messaging/event_producer.py:30-36 | before `start` raises `ProducerNotStartedException` and sends nothing; otherwise the broker records the encoded message exactly when the send succeeds |
| EventConsumer.LastHeaderIndex | src/shared/infrastructure/messaging/event_consumer.py:84 | `dict(headers)` keeps the last header of a key: the index of the last header named so, or none when absent |
| EventConsumer.ProcessMessageAsWritten | src/shared/infrastructure/messaging/event_consumer.py:82-104 | an exception escapes exactly when the `event_type` header does not decode, and it is `UnboundLocalError`; a key with no route is skipped |
| EventConsumer.Consume | src/shared/infrastructure/messaging/event_consumer.py:74-80 | the loop yields at most one result per arrival, and an exception escaping a message is the last result |
| EventConsumer.ProcessMessage | src/shared/infrastructure/messaging/event_consumer.py:82-104 | never raises; an unknown routing key is skipped; with a decodable header it behaves exactly as the code as written |
| EventConsumer.UndecodableHeaderEscapes | src/shared/infrastructure/messaging/event_consumer.py:84-104 | as written, a non-UTF-8 `event_type` header makes the `except` block raise `UnboundLocalError`; as intended it is logged |
| EventConsumer.ProducedMessageReachesHandler | src/shared/infrastructure/messaging/event_consumer.py:84-101 | a message the producer encodes for a routed event is decoded into that same event and handed to the handler its provider yields; handler errors are logged |
| EventConsumer.EveryMessageIsProcessed | src/shared/infrastructure/messaging/event_consumer.py:74-80 | as intended, a running consumer processes every message, in order |
| EventConsumer.UndecodableHeaderStopsTheLoop | src/shared/infrastructure/messaging/event_consumer.py:74-80 | as written, one message with an undecodable header ends `run_forever`: later messages are never processed |
| EventConsumer.KafkaIntegrationEventConsumer.constructor | src/shared/infrastructure/messaging/event_consumer.py:28-43 | a new consumer has no client and is not running |
| EventConsumer.KafkaIntegrationEventConsumer.Start | src/shared/infrastructure/messaging/event_consumer.py:45-56 | the client is started and the consumer running |
| EventConsumer.KafkaIntegrationEventConsumer.Stop | src/shared/infrastructure/messaging/event_consumer.py:58-63 | clears the running flag; stops the client only when there is one |
| EventConsumer.KafkaIntegrationEventConsumer.RunForever | src/shared/infrastructure/messaging/event_consumer.py:65-80 | before `start` raises `ConsumerNotStartedException`; otherwise never raises, and its results are `Consume`'s over the code as written: it breaks on the first message after a stop, ends on a broker error, and ends after a message whose undecodable `event_type` header makes `_process_message` raise |
| CqrsBus.Dispatch | src/shared/infrastructure/cqrs/buses.py:26-43 | `BusException` when no handler is keyed by the message's exact type; otherwise exactly that handler's result or exception |
| CqrsBus.DispatchIgnoresOtherTypes | src/shared/infrastructure/cqrs/buses.py:38 | handlers registered for other types never change a dispatch |
| CqrsBus.BusErrorOnlyWhenUnrouted | src/shared/infrastructure/cqrs/buses.py:38-43 | a dispatch raises `BusException` iff no handler is registered for the type, when no handler itself raises it |
| ExceptionRegistry.MergeDomain | src/shared/infrastructure/exceptions/exception_registry.py:20-23 | a class is mapped after the merge iff some mapping in the list has it |
| ExceptionRegistry.MergeLastWins | src/shared/infrastructure/exceptions/exception_registry.py:20-23 | the last mapping in the list that has a class decides its metadata |
| ExceptionRegistry.FirstMapped | src/shared/infrastructure/exceptions/exception_registry.py:27-30 | the metadata of the first MRO class that is mapped, with none before it mapped; `None` iff no MRO class is mapped |
| ExceptionRegistry.Registry.constructor | src/shared/infrastructure/exceptions/exception_registry.py:15-23 | the mappings are the list's dictionaries merged in order; `None` or `[]` gives no mappings |
| ExceptionRegistry.Registry.GetMetadata | src/shared/infrastructure/exceptions/exception_registry.py:25-30 | a mapping for the exception's own class wins over its bases; `None` iff nothing in the MRO is mapped |
| ExceptionRegistry.EmptyRegistryMapsNothing | src/shared/infrastructure/exceptions/exception_registry.py:20-30 | with no mappings, `get_metadata` returns `None` |
| ValueObjects.NewPlainPassword | src/modules/auth/domain/value_objects/plain_password.py:13-17 | raises `PasswordTooWeakException` iff shorter than 8; otherwise holds the text unchanged |
| ValueObjects.PasswordEqualityIsByValue | src/modules/auth/domain/value_objects/plain_password.py:22-28 | two passwords are equal iff their texts are |
| ValueObjects.NewUsername | src/modules/users/domain/value_objects/username.py:16-23 | raises `UsernameIsTooShortException` iff empty or shorter than 3; otherwise holds the text unchanged |
| DomainEvents.ClassNamesDistinct | src/modules/auth/domain/events/account_registered.py:10 | no two domain event classes share a `__name__` |
| DomainEvents.ToDict | src/modules/auth/domain/events/account_registered.py:14-15 | exactly the class's keys, `account_id` in its string form and `email` as its text |
| DomainEvents.FromDict | src/modules/auth/domain/events/account_registered.py:17-19 | a rebuilt event is of the class asked for |
| DomainEvents.RoundTrip | src/modules/auth/domain/events/account_registered.py:14-19 | `from_dict(to_dict(e)) == e` |
| DomainEvents.FromDictReadsOnlyItsKeys | src/modules/auth/domain/events/account_registered.py:19 | `from_dict` reads only its own keys; extra keys are ignored |
| DomainEvents.MissingAccountIdFails | src/modules/auth/domain/events/password_reset_completed.py:15-17 | a map without `account_id` fails with `KeyError('account_id')` |
| DomainEvents.MissingEmailFails | src/modules/auth/domain/events/account_registered.py:19 | an `AccountRegistered` map with a valid id but no `email` fails with `KeyError('email')` |
| IntegrationEvents.ToDict | src/modules/auth/contracts/events/account_registered.py:15-17 | only `account_id`, in its string form; the topic is not in the payload |
| IntegrationEvents.FromDict | src/modules/auth/contracts/events/account_registered.py:19-22 | succeeds iff `account_id` is present and parses, with that id; a missing key is a `KeyError` |
| IntegrationEvents.RoundTrip | src/modules/auth/contracts/events/account_registered.py:15-22 | `from_dict(to_dict(e)) == e` |
| IntegrationEvents.FromDictIgnoresExtraKeys | src/modules/auth/contracts/events/account_registered.py:22 | keys other than `account_id` do not change `from_dict` |
| Accounts.LoginVerdict | src/modules/auth/domain/entities/account.py:53-58 | `InvalidPasswordException` iff the password does not verify, checked before `AccountNotVerifiedException` iff it verifies on an unverified account; otherwise success |
| Accounts.NewPasswordLogsIn | src/modules/auth/domain/entities/account.py:48-58 | with a sound hasher, the password just set passes the password check of `login` |
| Accounts.Account.Login | src/modules/auth/domain/entities/account.py:53-58 | `InvalidPasswordException` iff the stored hash does not verify the password; success iff it does and the account is verified; a verified account accepts the password last set, under a sound hasher |
| Accounts.Account.constructor | src/modules/auth/domain/entities/account.py:21-27 | the fields are exactly the arguments, with no pending events |
| Accounts.Account.Create | src/modules/auth/domain/entities/account.py:29-46 | an unverified, ordinary account holding the hash of the password, with exactly one `AccountRegistered` event carrying its id and email |
| Accounts.Account.SetPassword | src/modules/auth/domain/entities/account.py:48-51 | stores the hash of the password and nothing else |
| Accounts.Account.VerifyEmail | src/modules/auth/domain/entities/account.py:60-63 | refused with `AccountAlreadyVerifiedException` once verified; otherwise marks the account verified, queuing nothing |
| Accounts.Account.RequestVerification | src/modules/auth/domain/entities/account.py:65-72 | refused once verified with nothing queued; otherwise queues one `VerificationRequested` with the token |
| Accounts.Account.RequestPasswordReset | src/modules/auth/domain/entities/account.py:74-79 | always queues one `PasswordResetRequested` with the token; nothing else changes |
| Accounts.Account.ResetPassword | src/modules/auth/domain/entities/account.py:81-85 | sets the new hash without checking the old and queues one `PasswordResetCompleted` |
| Accounts.Account.ChangePassword | src/modules/auth/domain/entities/account.py:87-98 | a wrong old password is refused with hash and queue unchanged; otherwise the new hash is stored and one `PasswordChanged` queued |
| Users.User.Create | src/modules/users/domain/entities/user.py:23-35 | id, account and name are exactly the arguments, with no event queued |
| Users.User.ChangeUsername | src/modules/users/domain/entities/user.py:37-43 | replaces only the name; id, account and queue unchanged |
| Users.RenameKeepsIdentity | src/modules/users/domain/entities/user.py:45-51 | two users are equal iff their ids are, and equal users hash alike, whatever their names |
| UserCreation.CreateUserAsWritten | src/modules/users/domain/services/user_creation.py:15-43 | a taken name is refused first; then an account id found among user ids; otherwise the new profile is exactly the arguments |
| UserCreation.CreateUser | src/modules/users/domain/services/user_creation.py:37-43 | a taken name is refused first; then an account that already has a profile; otherwise the new profile is exactly the arguments |
| UserCreation.CreateUserKeepsProfilesUnique | src/modules/users/domain/services/user_creation.py:37-43 | adding what the corrected service creates keeps one profile per account and one per name |
| UserCreation.AsWrittenCreatesSecondProfile | src/modules/users/domain/services/user_creation.py:40-41 | as written, a second profile for an account with one gets through; the corrected guard refuses it |
| GetUser.FindFirst | src/modules/users/application/queries/get_user.py:36-38 | a matching row when one exists, `None` iff none matches |
| GetUser.Handle | src/modules/users/application/queries/get_user.py:29-46 | a targeted read without superuser rights is `PermissionDeniedException`; the only other error is `UserProfileNotFoundException`; a result is the id and username of a stored user with the target id, or of the actor's account when there is no target |
| GetUser.PermissionCheckPrecedesLookup | src/modules/users/application/queries/get_user.py:30-32 | a non-superuser asking for a target is refused with `PermissionDeniedException` whatever the repository holds |
| GetUser.SelfReadFindsOwnProfile | src/modules/users/application/queries/get_user.py:34-46 | a self read succeeds iff the actor's account has a profile, returning its id and name; otherwise `UserProfileNotFoundException` |
| GetUser.SuperuserReadsTarget | src/modules/users/application/queries/get_user.py:34-46 | a superuser's targeted read succeeds iff a user has that id, and returns that user's id and username |
| ChangePassword.AccountRepository.GetById | src/modules/auth/infrastructure/database/repositories.py:21-23 | a fresh account rebuilt from the stored row, with no pending events, or `None` when there is no row |
| ChangePassword.AccountRepository.Update | src/modules/users/infrastructure/database/repositories.py:75-83 | enrols the aggregate and writes its row |
| ChangePassword.ChangePasswordHandler.constructor | src/modules/auth/application/commands/change_password.py:27-29 | keeps the unit of work and hasher |
| ChangePassword.ChangePasswordHandler.Handle | src/modules/auth/application/commands/change_password.py:31-52 | the order of the guards: equal passwords, a mismatched confirmation, a weak password, each refused with nothing changed; then the unit-of-work block |
| ChangePassword.ChangePasswordHandler.ChangeWithinUnitOfWork | src/modules/auth/application/commands/change_password.py:41-50 | a missing account or wrong old password fails with no outbox row; otherwise the new hash is stored, the result is the commit's, and from an empty registry a successful commit appends exactly the `PasswordChanged` row |
| ChangePassword.ChangePasswordHandler.CommitAndExit | src/modules/auth/application/commands/change_password.py:50 | commit then a normal exit; a failed commit writes no row; with one enrolled aggregate a successful one appends exactly that aggregate's rows |

## Left out

- Database I/O. The model does not include the SQLAlchemy session, the SQL
  text, or `SKIP LOCKED` exclusivity between concurrent processors. The
  outbox is one in-memory table used by a single processor. The outbox row's
  `id` (a uuid4 primary key) is not modelled; rows are identified by position.
- Broker I/O. Network effects of the Kafka clients' `start`/`stop` are not
  modelled. Whether one `send_and_wait` succeeds is a parameter. The broker
  is the log of accepted messages.
- asyncio. Scheduling, cancellation and the sleep interval are not modelled.
  `run_forever` loops are modelled over a finite sequence of rounds or
  arrivals.
- Logging, and the text of log messages, are not modelled.
- Clock. There is one clock reading per batch or per command, in whole
  seconds. The source reads `datetime.now` separately for the claim query and
  for each row's update.
- Randomness. uuid4 and bcrypt randomness are not modelled. The hasher and
  the codecs are parameters, and their laws are predicates required only
  where a property depends on them.
- Handler effects. The domain event bus, handlers and handler factories are
  functions from inputs to outcomes. What a handler does besides succeeding
  or raising is not modelled.
- Payload values are strings only. Every event field the core serialises is
  a string.
- Event classes whose source is not part of this model:
  - `VerificationRequested`, `PasswordResetRequested` and `PasswordChanged`
    are modelled on the two event classes shown. Their payload keys are
    inferred from the fields `account.py` passes.
  - The exceptions whose text is not shown carry their class name as their
    message.
- `src/modules/auth/domain/value_objects/email.py` is not part of this model.
  Email validity is a parameter, `Codecs.isEmail`.
- The auth account repository in this snapshot defines no `update`, although
  `change_password.py` calls one. `ChangePassword.AccountRepository.Update`
  follows the users repository's `update`: it registers the aggregate and
  merges its row.
- Transactions for the account row. The account row that `Update` writes is
  applied at once. It is not tied to the session's commit or rollback; only
  the outbox rows are transactional.
- ChangePassword.ChangePasswordHandler.ChangeWithinUnitOfWork: the exact
  outbox rows are stated only when no other aggregate was already enrolled.
  Otherwise the drained order across aggregates is the set's unspecified
  iteration order.
- GetUser.FindFirst: returns the first of several matching rows, where
  `scalar_one_or_none()` would raise `MultipleResultsFound`. The primary key
  on `id` and the unique `account_id` column rule out several matches in the
  database, so the model does not carry that error.
- AggregateRegistry context variable: `None` and the empty set behave the
  same under all three operations, and both are the empty set here.
- The outbox processor models the version wired in `outbox.py`. The older
  copies elsewhere in the repository are not modelled.

## Findings

| source | as written | input that shows it | evidently intended | confidence | as-written member | corrected member |
|---|---|---|---|---|---|---|
| src/shared/infrastructure/messaging/event_consumer.py:84-104 | the `event_type` header is decoded inside the `try`; if decoding fails, `event_type` is never bound, and the `except` block's log line reads it, so `UnboundLocalError` leaves `_process_message`, reaches `run_forever`'s outer `except` and ends consumption | a message whose `event_type` header is the single byte `0xff` (not UTF-8), followed by any other messages | the decode error is logged like every other per-message error, and later messages are still processed | not executed | EventConsumer.UndecodableHeaderStopsTheLoop | EventConsumer.EveryMessageIsProcessed |
| src/modules/users/domain/services/user_creation.py:40-41 | the "profile already exists for this account" guard looks the account id up with `get_by_id`, among user ids, so it fires only when some user's id equals the account id; the second profile then reaches the session, where only the unique `account_id` column refuses it at commit, with `IntegrityError` | repository holding user 1 for account 2 named "alice"; `create_user(user_id=3, account_id=2, username="bob")` | refuse with `UserAlreadyExistsForAccountException`, because account 2 already has a profile (`get_by_account_id`) | not executed | UserCreation.AsWrittenCreatesSecondProfile | UserCreation.CreateUserKeepsProfilesUnique |
