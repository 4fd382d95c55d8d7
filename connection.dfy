/**
 The DB-API `Connection` to BigQuery and its `connect` factory, as objects
 whose fields change in place. The clients and cursors the connection works
 with are reduced to what the connection does with them: it closes them.
 Each method of Connection is proved to take the step that
 Lifecycle.Step describes, and its modifies clause names exactly the
 objects that step may touch.
 */
module DbApi {
  import opened Lifecycle

  /** The Storage API client's transport channel; closing it is how the client is released. */
  class Channel {
    var closeCalls: nat

    constructor ()
      ensures closeCalls == 0
    {
      closeCalls := 0;
    }

    method Close()
      modifies this
      ensures closeCalls == old(closeCalls) + 1
    {
      closeCalls := closeCalls + 1;
    }
  }

  /** A BigQuery Storage API read client. It has no close() of its own, only its transport channel. */
  class ReadClient {
    const channel: Channel

    constructor ()
      ensures fresh(channel) && channel.closeCalls == 0
    {
      channel := new Channel();
    }
  }

  /**
   The REST API client. `storageAvailable` stands for whatever decides,
   outside this model, whether it can build a Storage API client (an
   installed library, credentials); it is fixed when the client is built.
   */
  class Client {
    const storageAvailable: bool
    var closeCalls: nat

    constructor (storageAvailable: bool)
      ensures this.storageAvailable == storageAvailable && closeCalls == 0
    {
      this.storageAvailable := storageAvailable;
      closeCalls := 0;
    }

    method Close()
      modifies this
      ensures closeCalls == old(closeCalls) + 1
    {
      closeCalls := closeCalls + 1;
    }

    /** Builds a Storage API client with this client's credentials, or gives null when that is not possible. */
    method CreateBqstorageClient() returns (r: ReadClient?)
      ensures r != null <==> storageAvailable
      ensures r != null ==> fresh(r) && fresh(r.channel) && r.channel.closeCalls == 0
    {
      if storageAvailable {
        r := new ReadClient();
      } else {
        r := null;
      }
    }
  }

  /** A DB-API cursor, reduced to the connection it uses and whether it is closed. */
  class Cursor {
    const connection: Connection
    var closed: bool

    constructor (connection: Connection)
      ensures this.connection == connection && !closed
    {
      this.connection := connection;
      closed := false;
    }

    method Close()
      modifies this
      ensures closed
    {
      closed := true;
    }
  }

  class Connection {
    const client: Client
    const bqstorageClient: ReadClient?
    const ownsClient: bool
    const ownsBqstorageClient: bool
    var closed: bool
    /** The cursors handed out and not yet reclaimed. */
    var cursorsCreated: set<Cursor>

    ghost predicate Valid()
      reads this
    {
      && (ownsBqstorageClient ==> bqstorageClient != null)
      && forall c :: c in cursorsCreated ==> c.connection == this
    }

    /** The connection's state as a Lifecycle value. */
    function State(): ConnState<Cursor>
      reads this
    {
      ConnState(ownsClient, ownsBqstorageClient, closed, cursorsCreated)
    }

    /** The external objects the connection is responsible for closing. */
    ghost function Owned(): set<object>
      reads this
    {
      var primary: set<object> := if ownsClient then {client} else {};
      var channel: set<object> := if ownsBqstorageClient && bqstorageClient != null then {bqstorageClient.channel} else {};
      primary + channel
    }

    /** The state of a connection just built from `client`, `bqstorageClient` and an environment that decides `envStorageAvailable`. */
    ghost predicate JustOpened(client: Client?, bqstorageClient: ReadClient?, envStorageAvailable: bool)
      reads this
    {
      && Valid()
      && State() == Init(client != null, bqstorageClient != null, this.bqstorageClient != null)
      && (client != null ==> this.client == client)
      && (client == null ==> this.client.storageAvailable == envStorageAvailable)
      && (bqstorageClient != null ==> this.bqstorageClient == bqstorageClient)
      && (bqstorageClient == null ==> (this.bqstorageClient != null <==> this.client.storageAvailable))
    }

    /**
     Without a client, builds one from the environment and owns it. Without
     a Storage client, asks the primary client for one and owns it when one
     is produced. A client the caller passes is used as is and never owned.
     */
    constructor (client: Client?, bqstorageClient: ReadClient?, envStorageAvailable: bool)
      ensures JustOpened(client, bqstorageClient, envStorageAvailable)
      ensures client == null ==> fresh(this.client) && this.client.closeCalls == 0
      ensures bqstorageClient == null && this.bqstorageClient != null ==>
                fresh(this.bqstorageClient) && fresh(this.bqstorageClient.channel) && this.bqstorageClient.channel.closeCalls == 0
    {
      var primary: Client;
      if client == null {
        primary := new Client(envStorageAvailable);
        ownsClient := true;
      } else {
        primary := client;
        ownsClient := false;
      }
      var storage: ReadClient?;
      if bqstorageClient == null {
        storage := primary.CreateBqstorageClient();
        ownsBqstorageClient := storage != null;
      } else {
        storage := bqstorageClient;
        ownsBqstorageClient := false;
      }
      this.client := primary;
      this.bqstorageClient := storage;
      closed := false;
      cursorsCreated := {};
    }

    /**
     Marks the connection closed, closes the clients it owns and every cursor
     registered at call time. On a closed connection it fails and does nothing.
     */
    method Close() returns (status: Status)
      requires Valid()
      modifies this, Owned(), cursorsCreated
      ensures Valid()
      ensures var t := Step(old(State()), CloseCall);
        && State() == t.next
        && status == t.status
        && client.closeCalls == old(client.closeCalls) + (if t.effect.closesClient then 1 else 0)
        && (bqstorageClient != null ==>
              bqstorageClient.channel.closeCalls == old(bqstorageClient.channel.closeCalls) + (if t.effect.closesChannel then 1 else 0))
        && forall c :: c in old(cursorsCreated) ==> c.closed == (old(c.closed) || c in t.effect.closesCursors)
    {
      if closed {
        return Failed(ClosedConnection);
      }
      closed := true;
      if ownsClient {
        client.Close();
      }
      if ownsBqstorageClient {
        bqstorageClient.channel.Close();
      }
      var pending := cursorsCreated;
      while pending != {}
        invariant pending <= cursorsCreated
        invariant closed && cursorsCreated == old(cursorsCreated)
        invariant client.closeCalls == old(client.closeCalls) + (if ownsClient then 1 else 0)
        invariant bqstorageClient != null ==>
                    bqstorageClient.channel.closeCalls == old(bqstorageClient.channel.closeCalls) + (if ownsBqstorageClient then 1 else 0)
        invariant forall c :: c in cursorsCreated ==> c.closed == (old(c.closed) || c !in pending)
        decreases pending
      {
        var c :| c in pending;
        c.Close();
        pending := pending - {c};
      }
      status := Completed;
    }

    /** Does nothing; on a closed connection it fails, as every public method does. */
    method Commit() returns (status: Status)
      ensures status == Failed(ClosedConnection) <==> closed
      ensures status == Step(State(), CommitCall).status
    {
      if closed {
        return Failed(ClosedConnection);
      }
      status := Completed;
    }

    /**
     Hands out a new cursor on this connection, registered before it is
     returned. On a closed connection it fails and registers nothing.
     */
    method Cursor() returns (r: Result<Cursor>)
      requires Valid()
      modifies this
      ensures Valid()
      ensures r.Success? <==> !old(closed)
      ensures r.Failure? ==> r.error == ClosedConnection && State() == old(State())
      ensures r.Success? ==>
                && fresh(r.value) && r.value.connection == this && !r.value.closed
                && cursorsCreated == old(cursorsCreated) + {r.value}
                && State() == Step(old(State()), CursorCall(r.value)).next
    {
      if closed {
        return Failure(ClosedConnection);
      }
      var c := new Cursor(this);
      cursorsCreated := cursorsCreated + {c};
      r := Success(c);
    }

    /** The garbage collector drops cursors nobody references any more from the weak registry. */
    method Reclaim(gone: set<Cursor>)
      requires Valid()
      modifies this
      ensures Valid()
      ensures cursorsCreated == old(cursorsCreated) - gone
      ensures State() == Step(old(State()), Collected(gone)).next
    {
      cursorsCreated := cursorsCreated - gone;
    }
  }

  /** Builds a Connection from the same two arguments, with nothing added. */
  method Connect(client: Client?, bqstorageClient: ReadClient?, envStorageAvailable: bool) returns (conn: Connection)
    ensures fresh(conn)
    ensures conn.JustOpened(client, bqstorageClient, envStorageAvailable)
    ensures client == null ==> fresh(conn.client) && conn.client.closeCalls == 0
    ensures bqstorageClient == null && conn.bqstorageClient != null ==>
              fresh(conn.bqstorageClient) && fresh(conn.bqstorageClient.channel) && conn.bqstorageClient.channel.closeCalls == 0
  {
    conn := new Connection(client, bqstorageClient, envStorageAvailable);
  }

  /**
   connect() with no arguments, two cursors, then close(): the cursors are
   distinct and both closed, the owned primary client is closed exactly
   once, and every later call fails.
   */
  method ConnectTwoCursorsClose(envStorageAvailable: bool) returns (conn: Connection, first: Cursor, second: Cursor, again: Status)
    ensures conn.closed && conn.ownsClient && conn.client.closeCalls == 1
    ensures first != second && first.closed && second.closed
    ensures first.connection == conn && second.connection == conn
    ensures conn.ownsBqstorageClient <==> envStorageAvailable
    ensures conn.bqstorageClient != null ==> conn.bqstorageClient.channel.closeCalls == 1
    ensures again == Failed(ClosedConnection)
  {
    conn := Connect(null, null, envStorageAvailable);
    var r1 := conn.Cursor();
    var r2 := conn.Cursor();
    first, second := r1.value, r2.value;
    var status := conn.Close();
    again := conn.Close();
  }

  /** A connection built on the caller's clients leaves them open through close(). */
  method PassedClientsStayOpen(client: Client, bqstorageClient: ReadClient, envStorageAvailable: bool) returns (conn: Connection)
    ensures conn.closed && !conn.ownsClient && !conn.ownsBqstorageClient
    ensures client.closeCalls == old(client.closeCalls)
    ensures bqstorageClient.channel.closeCalls == old(bqstorageClient.channel.closeCalls)
  {
    conn := Connect(client, bqstorageClient, envStorageAvailable);
    var r := conn.Cursor();
    var status := conn.Close();
  }
}
