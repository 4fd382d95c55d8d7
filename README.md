# BigQuery DB-API connection: ownership and lifecycle model

A Dafny model of the DB-API `Connection` of the BigQuery Python client and
of its `connect` factory. A connection holds a REST API client and an
optional BigQuery Storage API read client. It records which of them it
created itself, because it closes only those. It hands out cursors and keeps
them in a weakly-referenced registry so that `close()` can close them too.
Once closed, every public method fails with "Operating on a closed
connection.".

The model has two modules:

- `Lifecycle` (lifecycle.dfy) is the value-level specification. `ConnState`
  holds the two ownership flags, the closed flag and the cursor registry.
  `Request` is a call to `close`, `commit` or `cursor`, or the garbage
  collector dropping cursors from the weak registry. `Step` gives the next
  state, the outcome, and the `close()` calls the request makes on other
  objects. `Run` and its companions follow whole call sequences. The lemmas
  prove what holds over every such sequence.
- `DbApi` (connection.dfy) is the object model. `Connection` is a class
  whose fields change in place. The primary client, the Storage client with
  its transport channel, and the cursors are small classes that record being
  closed. Each `Connection` method is proved to take the step `Step`
  describes. Its `modifies` clause names only the owned clients and the
  registered cursors, so the verifier also checks that nothing else changes.

Decisions about the source:

- The class decorator at connection.py:24 wraps every public method,
  `close` included. So a second `close()` fails with the guard's error and
  does nothing. The model does the same for `close`, `commit` and `cursor`.
- `bigquery.Client()` builds a client from ambient configuration. Here the
  one thing about that environment the connection can observe is a
  constructor parameter: whether the new client can build a Storage client
  (`envStorageAvailable`).
- `client._create_bqstorage_client()` becomes
  `Client.CreateBqstorageClient`. It gives a fresh `ReadClient` or `null`,
  according to the client's fixed `storageAvailable` flag.
- The weak registry is a `set<Cursor>` field. Reclamation by the garbage
  collector is the explicit, unguarded step `Connection.Reclaim`. So
  `close()` closes exactly the cursors still registered when it is called.

## Model

| member | source | states |
|---|---|---|
| `Lifecycle.Init` | google/cloud/bigquery/dbapi/connection.py:49-67 | The primary client is owned iff none was passed. The Storage client is owned iff none was passed and the derived one is non-null. A new connection is open with an empty registry. |
| `Lifecycle.Step` | google/cloud/bigquery/dbapi/connection.py:24-98 | On a closed connection, close, commit and cursor fail with the closed-connection error. They leave the state unchanged and close nothing. Otherwise they complete. Closed never returns to false, and close always leaves the connection closed. Ownership never changes. Only owned clients and registered cursors are ever closed, and only close closes anything. |
| `Lifecycle.ClosedIsFinal` | google/cloud/bigquery/dbapi/connection.py:69-88 | After close, no sequence of calls reopens the connection or changes its ownership. No such sequence closes any client or cursor again. |
| `Lifecycle.ClosedIffCloseCalled` | google/cloud/bigquery/dbapi/connection.py:66-75 | After any call sequence, the connection is closed iff it was closed before or close was called. |
| `Lifecycle.OwnedClientsClosedOnce` | google/cloud/bigquery/dbapi/connection.py:69-82 | Take any call sequence on an open connection. If the connection owns the primary client and close is called, that client is closed exactly once; otherwise it is never closed. The same holds for the Storage client's channel. |
| `Lifecycle.PassedClientsNeverClosed` | google/cloud/bigquery/dbapi/connection.py:49-82 | From construction on, a client the caller passed is never closed by the connection. Neither client is closed more than once. |
| `Lifecycle.RegisteredWhileLive` | google/cloud/bigquery/dbapi/connection.py:90-98 | A registered cursor stays registered, and the connection stays open, through any calls other than close and reclamations of that cursor. |
| `Lifecycle.UnregisteredStaysOut` | google/cloud/bigquery/dbapi/connection.py:67 | A cursor not in the weak registry enters it only by being handed out by cursor(). |
| `Lifecycle.LiveCursorIsClosed` | google/cloud/bigquery/dbapi/connection.py:84-98 | A cursor handed out by an open connection, and not reclaimed since, is closed by the next close. |
| `Lifecycle.ReclaimedCursorIsSkipped` | google/cloud/bigquery/dbapi/connection.py:84-85 | A cursor the garbage collector has reclaimed, and that is not handed out again, is not closed by a later close. |
| `DbApi.Channel.constructor` | google/cloud/bigquery/dbapi/connection.py:82 | A new transport channel has not been closed. |
| `DbApi.Channel.Close` | google/cloud/bigquery/dbapi/connection.py:82 | Closing the channel is recorded as one more close call. |
| `DbApi.ReadClient.constructor` | google/cloud/bigquery/dbapi/connection.py:58 | A new Storage client has a fresh channel that has not been closed. |
| `DbApi.Client.constructor` | google/cloud/bigquery/dbapi/connection.py:51 | A new client has not been closed, and whether it can build a Storage client is fixed. |
| `DbApi.Client.Close` | google/cloud/bigquery/dbapi/connection.py:78 | Closing the client is recorded as one more close call. |
| `DbApi.Client.CreateBqstorageClient` | google/cloud/bigquery/dbapi/connection.py:56-59 | It gives a fresh, unclosed Storage client when Storage clients are available, and null otherwise. |
| `DbApi.Cursor.constructor` | google/cloud/bigquery/dbapi/connection.py:96 | A new cursor is bound to the given connection and is open. |
| `DbApi.Cursor.Close` | google/cloud/bigquery/dbapi/connection.py:85 | A cursor is closed afterwards. |
| `DbApi.Connection.constructor` | google/cloud/bigquery/dbapi/connection.py:49-67 | The new state is `Init` of which clients were passed and whether a Storage client resulted. Passed clients are kept as they are. A missing primary client is created fresh, unclosed and owned. A missing Storage client is derived from the primary one: it is fresh and owned when produced, and null otherwise. |
| `DbApi.Connection.Close` | google/cloud/bigquery/dbapi/connection.py:69-85 | The new state, outcome and close calls are those of `Step` for close. So it sets closed, closes the primary client iff owned, closes the Storage client's channel iff owned, and closes every cursor registered at call time. On a closed connection it fails and changes nothing. Only owned clients and registered cursors may change. |
| `DbApi.Connection.Commit` | google/cloud/bigquery/dbapi/connection.py:87-88 | Changes nothing (no modifies clause). It fails with the closed-connection error iff the connection is closed. |
| `DbApi.Connection.Cursor` | google/cloud/bigquery/dbapi/connection.py:90-98 | On an open connection it returns a fresh, open cursor bound to this connection. The registry becomes the old one plus that cursor, and nothing else changes. On a closed connection it fails and changes nothing. |
| `DbApi.Connection.Reclaim` | google/cloud/bigquery/dbapi/connection.py:67 | Garbage collection of cursors removes exactly those cursors from the weak registry. It is not guarded. |
| `DbApi.Connect` | google/cloud/bigquery/dbapi/connection.py:101-127 | Gives a fresh connection in exactly the state the constructor promises for the same arguments. |
| `DbApi.ConnectTwoCursorsClose` | google/cloud/bigquery/dbapi/connection.py:69-98 | Scenario: `connect()` with no arguments, two cursors, then close. The cursors are distinct and both closed. The owned primary client is closed exactly once. The Storage client is owned iff one could be built, and its channel is closed once. A second close then fails with the closed-connection error. |
| `DbApi.PassedClientsStayOpen` | google/cloud/bigquery/dbapi/connection.py:69-82 | Scenario: a connection built on the caller's clients owns neither. After a cursor and a close, neither client has been closed. |

## Left out

- Building the real REST client from environment-inferred credentials, and
  building the Storage client. Both are calls into other packages. They
  appear only as "a client object" and "maybe a client object", and the
  environment is a constructor parameter.
- The gRPC transport behind `transport.channel.close()`. The channel only
  counts its close calls.
- Cursor internals: query execution, fetching and the cursor's own guard.
  google/cloud/bigquery/dbapi/cursor.py is not part of this model. A cursor
  keeps only its connection and a closed flag.
- The implementation of `_helpers.raise_on_closed`. Only the behaviour it
  names is modelled: a guarded call on a closed connection fails with that
  message and does nothing.
- When the garbage collector reclaims a cursor. Reclamation is an explicit
  step that may happen between calls, not during `close()`.
- DbApi.Connection.Close: does not model an exception raised by an owned
  client's own `close()`, by the channel's, or by a registered cursor's.
  The cursor case is the common one: the cursor class carries its own
  closed guard, so a cursor its user already closed raises when the loop
  at connection.py:84-85 closes it again. Closing a cursor and then its
  connection is the ordinary pattern. In the source, any such exception
  propagates out of `close()` after `_closed` is already set and the owned
  clients before it are closed, and the cursors not yet reached stay open.
  The model assumes these calls return normally, so its `close()` always
  completes on an open connection and leaves every registered cursor
  closed.
