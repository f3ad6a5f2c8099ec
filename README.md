# RabbitMQ consumer helper — verified model

This project models the core of a small helper around the RabbitMQ Java
client: the class `RabbitMQConnection`, which reads a parameters file into a
property bag, validates it (with optional mutual TLS), configures a
`ConnectionFactory`, opens one connection, one channel and one queueing
consumer, hands deliveries to the caller through a `RabbitMQMessageData`
holder, acknowledges them one tag at a time and closes the session while
collecting every close failure into one message.

Modules, one per file:

- `Wrappers` (`wrappers.dfy`): `Option` and `Result`, standing for Java's null and thrown exceptions.
- `Numbers` (`numbers.dfy`): Java `byte`/`int`/`long` as newtypes, and `ParseInt`, the decimal parse `Integer.valueOf` applies to the `port` property, with its round trip through `Decimal`.
- `Config` (`config.dfy`): the property bag, the error kinds `init` throws, the TLS checks (`TlsSetup`), the whole validation (`Configure`), the factory field after `init` (`FactoryAfterConfigure`) and the outcome of each `init` overload as a function of the old state (`InitFromStreamOutcome`, `InitFromPathOutcome`).
- `Shutdown` (`shutdown.dfy`): the texts `close` reports, how they are joined, and `SplitLines`, the inverse used to state that the message lists each failure on its own line in order.
- `Broker` (`broker.dfy`): the client library as the session sees it: connection and channel handles, deliveries, the `QueueingConsumer` buffer (filled by `HandleDelivery`, which stands for the client library's delivery callback and is not code of this repository), and `BrokerCall`, the requests the session sends, which the session records in order.
- `MessageData` (`message_data.dfy`): the holder class.
- `Session` (`session.dfy`): the `RabbitMQConnection` class. Its methods change its fields as the Java methods do. Each method's `ensures` ties the new state to the `Config`/`Shutdown`/`Broker` functions, and the lemmas in those modules state what the source promises.

External effects are parameters. The file system is a map from path to
either a parsed bag or a load failure. The crypto library is three pass/fail
oracles: client keys, trust store and SSL context. Each broker step takes a
flag or a stage that says whether the broker refuses it. A ghost `phase` tag
(`Idle`, `Connected`, `ConnectFailed`, `Closed`) records where a session
stands, and the preconditions use it to exclude sequences the Java class
does not guard: connecting twice, closing before connecting, reading after
close. A ghost `calls` trace records every broker request, so "attempts both
closes, channel first" and "acknowledges exactly this tag" are stated about
that trace.

Three behaviours of the code that a reader might not expect, modelled as written:

- A non-numeric `port` does change the factory. The field is reassigned (line 85) and its host is set (line 86) before the port is parsed (line 87). Other validation failures leave it untouched.
- The property bag is not rebuilt per `init`. It accumulates across calls.
- An absent `trustKeystorePassphrase` with TLS on always fails, with a `NullPointerException` rather than the initialisation exception. This happens only after the client keystore has loaded.

## Model

| member | source | states |
|---|---|---|
| `Numbers.ParseInt` | src/main/java/com/sentilabs/helpers/rabbitmq/RabbitMQConnection.java:87 | a parsed port comes only from an optional '+' or '-' followed by at least one decimal digit; digit text (bare or after '+') is accepted exactly when its value fits in a Java `int` and then yields that value; after '-' it is accepted exactly when the negated value fits and yields it, so out-of-range text is refused |
| `Numbers.ParseIntRoundTrip` | src/main/java/com/sentilabs/helpers/rabbitmq/RabbitMQConnection.java:87 | every Java `int` written in decimal parses back to itself |
| `Numbers.NonCanonicalSpellings` | src/main/java/com/sentilabs/helpers/rabbitmq/RabbitMQConnection.java:87 | a leading '+' or a leading zero does not change the parse, so "+5672" and "05672" read as "5672" does |
| `Config.TlsSetup` | src/main/java/com/sentilabs/helpers/rabbitmq/RabbitMQConnection.java:50-83 | no context unless `SSL` is "1"; with TLS on, a missing `clientKeyCert` fails first, then a missing `trustKeystore`, whatever the crypto library would do; then a failing client-key step fails, then a missing trust passphrase gives the null-pointer outcome, then a failing trust-store step, then a failing context step, each with its own error; when all keys are present and all three steps pass, the result is the context built from the configured paths and passphrases, with the client passphrase defaulting to ""; a context exists only if all three steps passed |
| `Config.Configure` | src/main/java/com/sentilabs/helpers/rabbitmq/RabbitMQConnection.java:46-94 | a bag without `queueName` fails with that error; a TLS failure is passed on; it succeeds whenever `queueName` is present, the TLS part succeeds and the port parses, with the TLS part's context, and fails with a port error naming the text when the port does not parse; a successful factory carries host, parsed port, username, password and vhost from the bag or their defaults, and has TLS exactly when `SSL` is "1"; a port error names the unparsable text |
| `Config.NullPathRefused` | src/main/java/com/sentilabs/helpers/rabbitmq/RabbitMQConnection.java:28-30 | a null path fails with the initialisation exception and changes neither the bag nor the factory |
| `Config.UnopenablePathRefused` | src/main/java/com/sentilabs/helpers/rabbitmq/RabbitMQConnection.java:32-38 | a path that cannot be opened fails with the same exception type, its message naming the path, and changes nothing |
| `Config.QueueNameRequired` | src/main/java/com/sentilabs/helpers/rabbitmq/RabbitMQConnection.java:44-48 | when the merged bag lacks `queueName`, init fails with that error and the factory is not reassigned |
| `Config.FactoryReplacedOnlyAfterValidation` | src/main/java/com/sentilabs/helpers/rabbitmq/RabbitMQConnection.java:85-90 | every failure other than a bad port leaves the factory as it was; a changed factory implies `queueName` was present and the TLS part succeeded; when `queueName` is present, the TLS part succeeds and the port does not parse, the factory is a new one with only the host set and the library's defaults (5672, guest, guest, "/", no TLS) elsewhere |
| `Config.DefaultSettings` | src/main/java/com/sentilabs/helpers/rabbitmq/RabbitMQConnection.java:85-90 | with TLS off and no optional keys, the factory is localhost, 5672, guest, guest, "/" without TLS |
| `Config.ExplicitSettings` | src/main/java/com/sentilabs/helpers/rabbitmq/RabbitMQConnection.java:85-90 | with TLS off, explicit host, port (any `int` in decimal), username, password and vhost come back unchanged |
| `Config.TlsSettings` | src/main/java/com/sentilabs/helpers/rabbitmq/RabbitMQConnection.java:52-94 | with `SSL` "1", all TLS keys present and the three crypto steps passing, init succeeds with a factory switched to the context built from the bag's material, on the default port when none is given |
| `Config.SslExactlyWhenRequested` | src/main/java/com/sentilabs/helpers/rabbitmq/RabbitMQConnection.java:52-94 | after a successful init the factory uses TLS if and only if `SSL` is "1", with the context built from the configured material |
| `Config.EarlierKeysPersist` | src/main/java/com/sentilabs/helpers/rabbitmq/RabbitMQConnection.java:17-48 | a second init sees the keys of earlier loads: once `queueName` was loaded it never fails for lack of it, and a key not read again keeps its value |
| `Shutdown.ShutdownMessageLists` | src/main/java/com/sentilabs/helpers/rabbitmq/RabbitMQConnection.java:104-121 | the close message is empty exactly when no step failed, and otherwise splits into exactly the failed steps' descriptions, channel first |
| `Shutdown.ShutdownMessageShapes` | src/main/java/com/sentilabs/helpers/rabbitmq/RabbitMQConnection.java:105-117 | the message is the channel text alone, the connection text alone, or both joined by the line separator in that order |
| `Broker.ConnectCalls` | src/main/java/com/sentilabs/helpers/rabbitmq/RabbitMQConnection.java:97-102 | connect requests a connection from the factory, then a channel on that connection, then a consume of the queue with the caller's flag on that channel, stopping at the refused step |
| `Broker.QueueingConsumer.NextDelivery` | src/main/java/com/sentilabs/helpers/rabbitmq/RabbitMQConnection.java:141 | the oldest buffered delivery is returned and removed |
| `MessageData.RabbitMQMessageData.constructor` | src/main/java/com/sentilabs/helpers/rabbitmq/RabbitMQMessageData.java:5-6 | a fresh holder has no bytes (null) and tag 0 |
| `MessageData.RabbitMQMessageData.GetBytes` | src/main/java/com/sentilabs/helpers/rabbitmq/RabbitMQMessageData.java:8-10 | returns the stored bytes and changes nothing |
| `MessageData.RabbitMQMessageData.SetBytes` | src/main/java/com/sentilabs/helpers/rabbitmq/RabbitMQMessageData.java:12-14 | afterwards the bytes are the argument and the tag is unchanged |
| `MessageData.RabbitMQMessageData.GetDeliveryTag` | src/main/java/com/sentilabs/helpers/rabbitmq/RabbitMQMessageData.java:16-18 | returns the stored tag and changes nothing |
| `MessageData.RabbitMQMessageData.SetDeliveryTag` | src/main/java/com/sentilabs/helpers/rabbitmq/RabbitMQMessageData.java:20-22 | afterwards the tag is the argument and the bytes are unchanged |
| `Session.RabbitMQConnection.constructor` | src/main/java/com/sentilabs/helpers/rabbitmq/RabbitMQConnection.java:17-21 | a new object has an empty bag, no factory and no handles |
| `Session.RabbitMQConnection.Create` | src/main/java/com/sentilabs/helpers/rabbitmq/RabbitMQConnection.java:23-25 | a session exists exactly when init on the given path succeeds from empty state; it then has a factory, no handles and no broker requests yet |
| `Session.RabbitMQConnection.Init` | src/main/java/com/sentilabs/helpers/rabbitmq/RabbitMQConnection.java:27-41 | the new bag, factory and thrown error are those of `InitFromPathOutcome` on the old state; nothing else changes |
| `Session.RabbitMQConnection.InitFromStream` | src/main/java/com/sentilabs/helpers/rabbitmq/RabbitMQConnection.java:43-95 | the step-by-step load and setter sequence leaves exactly the bag, factory and error of `InitFromStreamOutcome` on the old state |
| `Session.RabbitMQConnection.Connect` | src/main/java/com/sentilabs/helpers/rabbitmq/RabbitMQConnection.java:97-102 | requests the `ConnectCalls` sequence for the configured queue; on success the channel is on the new connection and a fresh empty consumer is on that channel; a refused step is thrown unwrapped and the handles opened before it remain |
| `Session.RabbitMQConnection.Close` | src/main/java/com/sentilabs/helpers/rabbitmq/RabbitMQConnection.java:104-121 | both closes are requested, channel then connection, whatever fails; it throws if and only if a step failed, with the joined descriptions as message |
| `Session.RabbitMQConnection.GetHost` | src/main/java/com/sentilabs/helpers/rabbitmq/RabbitMQConnection.java:123-125 | returns the factory's host |
| `Session.RabbitMQConnection.GetPort` | src/main/java/com/sentilabs/helpers/rabbitmq/RabbitMQConnection.java:127-129 | returns the factory's port |
| `Session.RabbitMQConnection.GetUsername` | src/main/java/com/sentilabs/helpers/rabbitmq/RabbitMQConnection.java:131-133 | returns the factory's username |
| `Session.RabbitMQConnection.GetVirtualHost` | src/main/java/com/sentilabs/helpers/rabbitmq/RabbitMQConnection.java:135-137 | returns the factory's virtual host |
| `Session.RabbitMQConnection.NextData` | src/main/java/com/sentilabs/helpers/rabbitmq/RabbitMQConnection.java:139-144 | the oldest delivery leaves the consumer's queue and its body and envelope tag are copied unchanged into the holder |
| `Session.RabbitMQConnection.BasicAck` | src/main/java/com/sentilabs/helpers/rabbitmq/RabbitMQConnection.java:146-148 | exactly one acknowledgement of the holder's tag with `multiple` false is requested on the session's channel, with no de-duplication; an I/O failure is passed on |
| `Session.ReceiveAndAck` | src/main/java/com/sentilabs/helpers/rabbitmq/RabbitMQConnection.java:139-148 | a next-data followed by an ack leaves the delivered body and tag in the holder and requests acknowledgement of exactly that tag |

## Left out

- Opening files and the textual `Properties` format: a path maps to a parsed bag or to a load failure. A load that fails part-way adds no keys here, whereas `Properties.load` keeps the keys read before the failure.
- The input streams opened by `init` and for the keystores are never closed by the source. The model has no resource tracking.
- The crypto libraries (`KeyStore`, `KeyManagerFactory`, `TrustManagerFactory`, `SSLContext`, the pinned protocol name) are three pass/fail oracles. Only their order against the passphrase lookup is modelled.
- `ConnectionFactory` is a library class. The model treats it as a value with the library defaults localhost, 5672, guest, guest and "/". The library's handling of port -1 (use the default port, 5671 under TLS) is not modelled: `GetPort` returns the port that was set.
- `Numbers.ParseInt` accepts ASCII digits only. `Integer.valueOf` also accepts other Unicode decimal digits.
- The broker wire protocol, and what a broker does with an acknowledgement, are not modelled. Each broker step succeeds or fails by a parameter.
- The blocking wait in `nextDelivery` and its `InterruptedException` are not modelled. `NextData` requires a buffered delivery.
- Exceptions other than `IOException` from `close`, `basicAck` or `nextData` are excluded by preconditions on the phase and the handles. Examples are a null handle before `connect` and an already-closed channel.
- `System.lineSeparator()` is fixed to "\n".
- `MessageData.RabbitMQMessageData.GetBytes`: bytes are a value sequence. The Java holder stores and returns the same array reference, so aliasing of the body array is not modelled.
- Threads and concurrent calls on one session are not modelled.
