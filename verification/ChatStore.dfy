/**
 internal/store/repo.go: the chat_messages table and the agents it refers to.

 Ids that the store draws (ULIDs) are numbers here; a later draw is a larger number.
 The schema is that of internal/store/migrations/0003_chat_history.sql: message_id is
 unique over the whole table and rows go with their agent.
 */
module ChatStore {
  import opened Basics

  datatype Role = User | Agent | System | Error

  /**
   A text, as given by a user, the agent or Docker, or as one of the daemon's own
   formats with its arguments (internal/daemon/chat.go:101-276).
   */
  datatype Text =
    | Said(words: string)
    | NoDocker                                  // docker client not available
    | NotRunning(state: string, name: string)   // agent not running (container state: ...) ...
    | PiExited(code: int, output: string)       // pi exited with code ...: ...
    | Unavailable(err: string)                  // chat history unavailable: ...
    | NoReply(err: string)                      // chat request already accepted; reply is not available: ...

  datatype Row = Row(
    id: nat,
    agentId: nat,
    role: Role,
    content: Text,
    parentId: string,
    messageId: string,
    sequence: int,
    timestamp: nat)

  datatype AgentRec = AgentRec(id: nat, containerId: string)

  datatype Store = Store(agents: map<string, AgentRec>, rows: seq<Row>)

  /** NameTaken: some row holds the message_id already; which one, the inserter is not told. */
  datatype InsertResult = Stored | NameTaken(holder: Row) | Failed

  predicate Live(st: Store, agentId: nat) {
    exists name :: name in st.agents && st.agents[name].id == agentId
  }

  /** The row that holds a message_id, in whatever agent's history it is. */
  function HolderOf(rows: seq<Row>, messageId: string): (r: Option<Row>)
    ensures r.Some? ==> r.value in rows && r.value.messageId == messageId
    ensures r.None? ==> forall row :: row in rows ==> row.messageId != messageId
  {
    if rows == [] then None
    else if rows[0].messageId == messageId then Some(rows[0])
    else HolderOf(rows[1..], messageId)
  }

  /** What InsertChatMessage answers when the database itself does not fail. */
  function InsertVerdict(st: Store, row: Row): InsertResult {
    var holder := HolderOf(st.rows, row.messageId);
    if holder.Some? then NameTaken(holder.value)
    else if exists i :: 0 <= i < |st.rows| && st.rows[i].id == row.id then Failed
    else if !Live(st, row.agentId) then Failed
    else Stored
  }

  function Insert(st: Store, row: Row): Store {
    st.(rows := st.rows + [row])
  }

  /**
   The answers and effects an insert can have: the database may also report a failure
   for a row it has stored, or for one it never looked at.
   */
  predicate InsertAllowed(st: Store, row: Row, res: InsertResult, commits: bool) {
    match res
    case Stored => commits && InsertVerdict(st, row) == Stored
    case NameTaken(_) => !commits && InsertVerdict(st, row) == res
    case Failed => commits ==> InsertVerdict(st, row) == Stored
  }

  function Without(rows: seq<Row>, agentId: nat): seq<Row> {
    if rows == [] then []
    else
      var rest := Without(rows[..|rows| - 1], agentId);
      var last := rows[|rows| - 1];
      if last.agentId == agentId then rest else rest + [last]
  }

  /** DELETE FROM agents, with the cascade to chat_messages. */
  function DeleteAgent(st: Store, name: string): Store
    requires name in st.agents
  {
    Store(st.agents - {name}, Without(st.rows, st.agents[name].id))
  }

  // ---------- listing ----------

  /** ORDER BY timestamp ASC, sequence ASC, id ASC */
  predicate Before(a: Row, b: Row) {
    || a.timestamp < b.timestamp
    || (a.timestamp == b.timestamp && (a.sequence < b.sequence || (a.sequence == b.sequence && a.id < b.id)))
  }

  function Place(sorted: seq<Row>, row: Row): seq<Row> {
    if sorted == [] || Before(row, sorted[0]) then [row] + sorted
    else [sorted[0]] + Place(sorted[1..], row)
  }

  function SortedOf(rows: seq<Row>, agentId: nat): seq<Row> {
    if rows == [] then []
    else
      var rest := SortedOf(rows[..|rows| - 1], agentId);
      var last := rows[|rows| - 1];
      if last.agentId == agentId then Place(rest, last) else rest
  }

  function ListChatHistory(st: Store, agentId: nat, limit: int): seq<Row> {
    var all := SortedOf(st.rows, agentId);
    if 0 < limit < |all| then all[..limit] else all
  }

  // ---------- properties ----------

  /** Primary key and message_id are both unique. */
  ghost predicate Distinct(rows: seq<Row>) {
    forall i, j :: 0 <= i < j < |rows| ==> rows[i].id != rows[j].id && rows[i].messageId != rows[j].messageId
  }

  ghost predicate Sorted(rows: seq<Row>) {
    forall i, j :: 0 <= i < j < |rows| ==> Before(rows[i], rows[j])
  }

  lemma {:induction false} WithoutHolds(rows: seq<Row>, agentId: nat)
    requires Distinct(rows)
    ensures Distinct(Without(rows, agentId))
    ensures forall r :: r in Without(rows, agentId) <==> r in rows && r.agentId != agentId
  {
    if rows != [] {
      var init, last := rows[..|rows| - 1], rows[|rows| - 1];
      WithoutHolds(init, agentId);
      assert rows == init + [last];
      var rest := Without(init, agentId);
      forall r | r in rest ensures r.id != last.id && r.messageId != last.messageId {
        assert r in init;
        var i :| 0 <= i < |init| && init[i] == r;
        assert rows[i] == r;
      }
    }
  }

  lemma {:induction false} PlaceHolds(sorted: seq<Row>, row: Row)
    requires Sorted(sorted) && forall r :: r in sorted ==> r.id != row.id
    ensures Sorted(Place(sorted, row))
    ensures forall r :: r in Place(sorted, row) <==> r == row || r in sorted
    ensures |Place(sorted, row)| == |sorted| + 1
  {
    if sorted == [] || Before(row, sorted[0]) {
    } else {
      var rest := sorted[1..];
      assert sorted == [sorted[0]] + rest;
      PlaceHolds(rest, row);
      var placed := Place(rest, row);
      forall r | r in placed ensures Before(sorted[0], r) {
        if r != row {
          var i :| 0 <= i < |rest| && rest[i] == r;
          assert sorted[i + 1] == r;
        } else {
          assert sorted[0] in sorted;
        }
      }
    }
  }

  /** The listing of an agent holds its rows, each once, in strict list order. */
  lemma {:induction false} SortedOfHolds(rows: seq<Row>, agentId: nat)
    requires Distinct(rows)
    ensures Sorted(SortedOf(rows, agentId))
    ensures forall r :: r in SortedOf(rows, agentId) <==> r in rows && r.agentId == agentId
  {
    if rows != [] {
      var init, last := rows[..|rows| - 1], rows[|rows| - 1];
      SortedOfHolds(init, agentId);
      assert rows == init + [last];
      var rest := SortedOf(init, agentId);
      forall r | r in rest ensures r.id != last.id {
        assert r in init;
        var i :| 0 <= i < |init| && init[i] == r;
        assert rows[i] == r;
      }
      if last.agentId == agentId { PlaceHolds(rest, last); }
    }
  }

  /** A positive limit cuts the full listing; anything else lists all of it. */
  lemma LimitIsPrefix(st: Store, agentId: nat, limit: int)
    requires Distinct(st.rows)
    ensures var full := ListChatHistory(st, agentId, 0);
            var some := ListChatHistory(st, agentId, limit);
            && some <= full
            && |some| == (if 0 < limit < |full| then limit else |full|)
            && Sorted(full)
            && forall r :: r in full <==> r in st.rows && r.agentId == agentId
  {
    SortedOfHolds(st.rows, agentId);
  }

  /** Older rows come first; of equally old ones those with the smaller sequence, then those drawn earlier. */
  lemma OrderOfListing(st: Store, agentId: nat, i: nat, j: nat)
    requires Distinct(st.rows) && i < j < |ListChatHistory(st, agentId, 0)|
    ensures var a, b := ListChatHistory(st, agentId, 0)[i], ListChatHistory(st, agentId, 0)[j];
            && a.timestamp <= b.timestamp
            && (a.timestamp == b.timestamp ==> a.sequence <= b.sequence)
            && (a.timestamp == b.timestamp && a.sequence == b.sequence ==> a.id < b.id)
  {
    SortedOfHolds(st.rows, agentId);
  }

  /** A row is stored exactly if its agent is there and neither its id nor its message_id is taken. */
  lemma StoredIff(st: Store, row: Row)
    ensures InsertVerdict(st, row) == Stored
            <==> && (forall r :: r in st.rows ==> r.messageId != row.messageId && r.id != row.id)
                 && exists name :: name in st.agents && st.agents[name].id == row.agentId
    ensures InsertVerdict(st, row).NameTaken? <==> exists r :: r in st.rows && r.messageId == row.messageId
  {
    var holder := HolderOf(st.rows, row.messageId);
    if forall r :: r in st.rows ==> r.messageId != row.messageId && r.id != row.id {
      assert forall i :: 0 <= i < |st.rows| ==> st.rows[i] in st.rows;
    }
  }

  /** In a listing the place of a row is decided by Before alone. */
  lemma ListedInOrder(st: Store, agentId: nat, a: Row, b: Row) returns (i: nat, j: nat)
    requires Distinct(st.rows) && a in st.rows && b in st.rows && a.agentId == b.agentId == agentId
    requires Before(a, b)
    ensures var full := ListChatHistory(st, agentId, 0);
            i < j < |full| && full[i] == a && full[j] == b
  {
    SortedOfHolds(st.rows, agentId);
    var full := ListChatHistory(st, agentId, 0);
    assert a in full && b in full;
    i :| 0 <= i < |full| && full[i] == a;
    j :| 0 <= j < |full| && full[j] == b;
  }
}
