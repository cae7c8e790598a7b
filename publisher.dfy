/**
 * The server-side publisher: a loop that fetches the commands whose status is
 * "sent", publishes each one's parameters to `"/{device_uuid}/control"`,
 * marks it "sent2pot", and then sleeps, briefly after finding work and ever
 * longer (up to a cap) while idle.
 *
 * The command table is a field; a failed fetch is a parameter of one tick.
 */
module Publisher {
  import Subscriber
  import Text

  const MinSleep: real := 0.2
  const MaxSleep: real := 5.0

  /** The sleep after a tick: back to the minimum after work, otherwise half as long again, capped. */
  function NextSleep(sleep: real, found: bool): (next: real)
    ensures MinSleep <= sleep <= MaxSleep ==> MinSleep <= next <= MaxSleep
    ensures !found && sleep >= 0.0 ==> next >= sleep || next == MaxSleep
    ensures next <= MaxSleep
  {
    if found then MinSleep
    else if sleep * 1.5 < MaxSleep then sleep * 1.5
    else MaxSleep
  }

  /** The sleep after `n` idle ticks. */
  function IdleSleep(sleep: real, n: nat): real
    decreases n
  {
    if n == 0 then sleep else IdleSleep(NextSleep(sleep, false), n - 1)
  }

  /** A longer sleep stays at least as long through idle ticks. */
  lemma {:induction false} IdleSleepMonotone(s: real, s': real, n: nat)
    requires s <= s'
    ensures IdleSleep(s, n) <= IdleSleep(s', n)
    decreases n
  {
    if n > 0 {
      IdleSleepMonotone(NextSleep(s, false), NextSleep(s', false), n - 1);
    }
  }

  /** Idle ticks never sleep longer than the cap. */
  lemma {:induction false} IdleSleepCapped(s: real, n: nat)
    requires n >= 1 || s <= MaxSleep
    ensures IdleSleep(s, n) <= MaxSleep
    decreases n
  {
    if n > 0 {
      IdleSleepCapped(NextSleep(s, false), n - 1);
    }
  }

  /**
   * From the minimum, seven idle ticks stay below the cap and the eighth
   * reaches it; from any sleep at least the minimum, eight idle ticks reach it.
   */
  lemma IdleTicksReachMax(s: real)
    requires MinSleep <= s
    ensures IdleSleep(MinSleep, 7) < MaxSleep
    ensures IdleSleep(s, 8) == MaxSleep
  {
    var s7 := MinSleep * 1.5 * 1.5 * 1.5 * 1.5 * 1.5 * 1.5 * 1.5;
    assert IdleSleep(MinSleep, 7) == s7 by {
      assert IdleSleep(MinSleep * 1.5 * 1.5 * 1.5 * 1.5 * 1.5 * 1.5 * 1.5, 0) == s7;
    }
    assert IdleSleep(MinSleep, 8) == MaxSleep by {
      assert IdleSleep(MaxSleep, 0) == MaxSleep;
    }
    IdleSleepMonotone(MinSleep, s, 8);
    IdleSleepCapped(s, 8);
  }

  /** A row of the command table, as far as the publisher reads and writes it. */
  datatype StoredCommand = StoredCommand(id: nat, deviceUuid: string, parametersJson: string, status: string)

  /** A message handed to the MQTT client. */
  datatype Publication = Publication(topic: string, payload: string)

  /** The command table's ids are its primary key. */
  ghost predicate DistinctIds(table: seq<StoredCommand>) {
    forall i, j :: 0 <= i < j < |table| ==> table[i].id != table[j].id
  }

  /** `fetch_pending_commands` when the query succeeds: the rows with status "sent", in table order. */
  function Pending(table: seq<StoredCommand>): (rows: seq<StoredCommand>)
  {
    if table == [] then []
    else (if table[0].status == "sent" then [table[0]] else []) + Pending(table[1..])
  }

  /** The pending rows are exactly the table's rows with status "sent". */
  lemma {:induction false} PendingMeans(table: seq<StoredCommand>, r: StoredCommand)
    ensures r in Pending(table) <==> r in table && r.status == "sent"
  {
    if table != [] {
      PendingMeans(table[1..], r);
      assert table == [table[0]] + table[1..];
    }
  }

  /** The topic a command for `deviceUuid` goes out on. */
  function CommandTopic(deviceUuid: string): string {
    "/" + deviceUuid + "/control"
  }

  /** The messages publishing `rows` in order sends. */
  function PublicationsOf(rows: seq<StoredCommand>): (ps: seq<Publication>)
    ensures |ps| == |rows|
    ensures forall k :: 0 <= k < |rows| ==> ps[k] == Publication(CommandTopic(rows[k].deviceUuid), rows[k].parametersJson)
  {
    seq(|rows|, k requires 0 <= k < |rows| => Publication(CommandTopic(rows[k].deviceUuid), rows[k].parametersJson))
  }

  /**
   * Each message publishing sends goes to the topic the subscriber parses
   * back to the row's device uuid and "control", and it reaches the
   * subscriber's control handler unless the uuid itself contains "sensor".
   */
  lemma PublishedTopicParses(rows: seq<StoredCommand>, k: nat)
    requires k < |rows|
    requires rows[k].deviceUuid != [] && '/' !in rows[k].deviceUuid
    ensures var topic := PublicationsOf(rows)[k].topic;
            && Subscriber.TopicParts(topic) == [rows[k].deviceUuid, "control"]
            && Subscriber.RouteOf(topic)
               == if Text.Contains(rows[k].deviceUuid, "sensor") then Subscriber.SensorRoute else Subscriber.ControlRoute
  {
    Subscriber.ControlTopicParts(rows[k].deviceUuid);
    Subscriber.CommandTopicRoute(rows[k].deviceUuid);
  }

  function IdsOf(rows: seq<StoredCommand>): set<nat> {
    set r | r in rows :: r.id
  }

  /** The table after the rows with the given ids are marked "sent2pot". */
  function Promote(table: seq<StoredCommand>, ids: set<nat>): (t: seq<StoredCommand>)
    ensures |t| == |table|
  {
    seq(|table|, k requires 0 <= k < |table| =>
          if table[k].id in ids then table[k].(status := "sent2pot") else table[k])
  }

  /** Publishing one more row appends its message. */
  lemma PublicationsStep(rows: seq<StoredCommand>, i: nat)
    requires i < |rows|
    ensures PublicationsOf(rows[..i + 1])
              == PublicationsOf(rows[..i]) + [Publication(CommandTopic(rows[i].deviceUuid), rows[i].parametersJson)]
  {
  }

  /** Marking one more row is marking the larger id set; ids are never changed. */
  lemma PromoteStep(table: seq<StoredCommand>, rows: seq<StoredCommand>, i: nat)
    requires i < |rows|
    ensures Promote(Promote(table, IdsOf(rows[..i])), {rows[i].id}) == Promote(table, IdsOf(rows[..i + 1]))
  {
    assert rows[..i + 1] == rows[..i] + [rows[i]];
    assert IdsOf(rows[..i + 1]) == IdsOf(rows[..i]) + {rows[i].id};
  }

  /** Marking rows changes no id, so the ids stay distinct. */
  lemma PromoteKeepsIds(table: seq<StoredCommand>, ids: set<nat>)
    requires DistinctIds(table)
    ensures DistinctIds(Promote(table, ids))
  {
    var t := Promote(table, ids);
    forall i, j | 0 <= i < j < |t| ensures t[i].id != t[j].id {
      assert t[i].id == table[i].id && t[j].id == table[j].id;
    }
  }

  /**
   * After a tick whose fetch succeeded, every row that was "sent" is
   * "sent2pot", every other row is unchanged, and so no row is left "sent".
   */
  lemma TickSettlesPending(table: seq<StoredCommand>)
    requires DistinctIds(table)
    ensures var after := Promote(table, IdsOf(Pending(table)));
            && (forall k :: 0 <= k < |table| ==>
                  after[k] == if table[k].status == "sent" then table[k].(status := "sent2pot") else table[k])
            && forall k :: 0 <= k < |table| ==> after[k].status != "sent"
  {
    forall k | 0 <= k < |table|
      ensures table[k].id in IdsOf(Pending(table)) <==> table[k].status == "sent"
    {
      PendingMeans(table, table[k]);
      if table[k].id in IdsOf(Pending(table)) {
        var r :| r in Pending(table) && r.id == table[k].id;
        PendingMeans(table, r);
        var j :| 0 <= j < |table| && table[j] == r;
        assert j == k;
      }
    }
  }

  class Publisher {
    var sleepTime: real
    /** The command table. */
    var commands: seq<StoredCommand>
    /** Every message handed to the MQTT client so far, in order. */
    var outbox: seq<Publication>

    ghost predicate Valid()
      reads this
    {
      MinSleep <= sleepTime <= MaxSleep && DistinctIds(commands)
    }

    constructor(table: seq<StoredCommand>)
      requires DistinctIds(table)
      ensures Valid()
      ensures sleepTime == MinSleep && commands == table && outbox == []
    {
      sleepTime := MinSleep;
      commands := table;
      outbox := [];
    }

    /**
     * One pass of the loop: fetch (an error yields no rows), publish each
     * fetched row and mark it "sent2pot", then choose the next sleep.
     */
    method Tick(fetchFails: bool) returns (published: nat)
      requires Valid()
      modifies this
      ensures Valid()
      ensures var rows := if fetchFails then [] else Pending(old(commands));
              && published == |rows|
              && outbox == old(outbox) + PublicationsOf(rows)
              && commands == Promote(old(commands), IdsOf(rows))
              && sleepTime == NextSleep(old(sleepTime), |rows| > 0)
    {
      var rows := if fetchFails then [] else Pending(commands);
      var i := 0;
      while i < |rows|
        invariant 0 <= i <= |rows|
        invariant outbox == old(outbox) + PublicationsOf(rows[..i])
        invariant commands == Promote(old(commands), IdsOf(rows[..i]))
        invariant sleepTime == old(sleepTime)
      {
        var row := rows[i];
        outbox := outbox + [Publication(CommandTopic(row.deviceUuid), row.parametersJson)];
        commands := Promote(commands, {row.id});
        PublicationsStep(rows, i);
        PromoteStep(old(commands), rows, i);
        i := i + 1;
      }
      assert rows[..i] == rows;
      PromoteKeepsIds(old(commands), IdsOf(rows));
      sleepTime := NextSleep(sleepTime, |rows| > 0);
      published := |rows|;
    }
  }
}
