/**
 * The relay server's bookkeeping (server/src/main.rs): the registry of connected clients, the
 * broadcast of every text or binary frame a client sends, the forwarding of broadcasts to every
 * other client, and the rate-limited logging of device snapshots into the database.
 *
 * Time is a monotonic clock read in nanoseconds (`Instant`) and a wall-clock timestamp in
 * seconds; both are inputs. JSON decoding and the lossy UTF-8 decoding of binary frames are
 * functions passed in. The database is two append-only tables of rows; the broadcast channel is
 * the sequence of messages handed to it.
 */
module Server {
  import opened Common
  import opened Float32
  import opened Channels
  import opened Devices

  /** Seconds that must pass between two logs. */
  const LOG_RATE: nat := 1

  const NANOS_PER_SECOND: nat := 1_000_000_000

  /** What one client hands to the broadcast channel. */
  datatype Msg = Msg(clientId: string, payload: string)

  /** `DeviceData`: the snapshot a text frame carries when it is valid JSON of that shape. */
  datatype DeviceData = DeviceData(devices: seq<Device>)

  /** A websocket frame as the client sent it. */
  datatype Frame = Text(text: string) | Binary(bytes: seq<u8>) | Ping | Pong | Close

  /**
   * A frame as the receive loop handles it: the clock reading at the elapsed-time check, the
   * clock reading when the timer is reset after a log, and the wall-clock time a log records.
   */
  datatype Inbound = Inbound(frame: Frame, now: nat, resetAt: nat, timestamp: int)

  /** The decoders the handler relies on: `serde_json::from_str` and `String::from_utf8_lossy`. */
  datatype Decoders = Decoders(parseDeviceData: string -> Option<DeviceData>, utf8Lossy: seq<u8> -> string)

  // ---------------------------------------------------------------------------------------------
  // The database

  /** A row of `Records`. */
  datatype Record = Record(id: nat, datetime: int)

  /** A row of `Data` (its own autoincrement key is not modelled). */
  datatype DataRow = DataRow(channelId: int, deviceId: int, value: F32, recordId: nat)

  datatype Db = Db(records: seq<Record>, data: seq<DataRow>)

  /** `x as i32` on a `usize`: keep the low 32 bits, read them as two's complement. */
  function AsI32(x: nat): (r: int)
    ensures -0x8000_0000 <= r < 0x8000_0000
    ensures (r - x) % 0x1_0000_0000 == 0
    ensures x < 0x8000_0000 ==> r == x
  {
    var w := x % 0x1_0000_0000;
    if w >= 0x8000_0000 then w - 0x1_0000_0000 else w
  }

  /** The key `AUTOINCREMENT` gives the next record: one past the last one, starting at 1. */
  function NextRecordId(records: seq<Record>): (id: nat)
    ensures id >= 1
    ensures forall k :: 0 <= k < |records| && RecordIdsIncreasing(records) ==> records[k].id < id
  {
    if records == [] then 1 else records[|records| - 1].id + 1
  }

  predicate RecordIdsIncreasing(records: seq<Record>) {
    forall i, j :: 0 <= i < j < |records| ==> records[i].id < records[j].id
  }

  predicate HasRecord(records: seq<Record>, id: nat) {
    exists k :: 0 <= k < |records| && records[k].id == id
  }

  /** Record keys are increasing and every data row references an existing record. */
  predicate DbValid(db: Db) {
    && RecordIdsIncreasing(db.records)
    && forall k :: 0 <= k < |db.data| ==> HasRecord(db.records, db.data[k].recordId)
  }

  /** The row one channel contributes to record `recordId`. */
  function Row(c: Channel, recordId: nat): DataRow {
    DataRow(AsI32(c.id), AsI32(c.deviceId), c.value, recordId)
  }

  function ChannelRows(chs: seq<Channel>, recordId: nat): (rows: seq<DataRow>)
    ensures forall k :: 0 <= k < |rows| ==> rows[k].recordId == recordId
  {
    if chs == [] then [] else ChannelRows(chs[..|chs| - 1], recordId) + [Row(chs[|chs| - 1], recordId)]
  }

  /** The data rows of one log: every channel of every device, devices in order. */
  function DataRows(devices: seq<Device>, recordId: nat): (rows: seq<DataRow>)
    ensures forall k :: 0 <= k < |rows| ==> rows[k].recordId == recordId
  {
    if devices == [] then []
    else DataRows(devices[..|devices| - 1], recordId) + ChannelRows(devices[|devices| - 1].channels, recordId)
  }

  function TotalChannels(devices: seq<Device>): nat {
    if devices == [] then 0 else TotalChannels(devices[..|devices| - 1]) + |devices[|devices| - 1].channels|
  }

  lemma ChannelRowsSnoc(chs: seq<Channel>, j: nat, recordId: nat)
    requires j < |chs|
    ensures ChannelRows(chs[..j + 1], recordId) == ChannelRows(chs[..j], recordId) + [Row(chs[j], recordId)]
  {
    assert chs[..j + 1][..j] == chs[..j];
  }

  lemma DataRowsSnoc(devices: seq<Device>, i: nat, recordId: nat)
    requires i < |devices|
    ensures DataRows(devices[..i + 1], recordId) == DataRows(devices[..i], recordId) + ChannelRows(devices[i].channels, recordId)
  {
    assert devices[..i + 1][..i] == devices[..i];
    assert devices[i].channels[..|devices[i].channels|] == devices[i].channels;
  }

  /** The database after `log_data`: one new record, then its data rows. */
  function AfterLog(db: Db, dd: DeviceData, timestamp: int): (db': Db)
    ensures db.records <= db'.records && db.data <= db'.data
    ensures |db'.records| == |db.records| + 1 && db'.records[|db.records|].datetime == timestamp
  {
    var id := NextRecordId(db.records);
    Db(db.records + [Record(id, timestamp)], db.data + DataRows(dd.devices, id))
  }

  /** Row `k` of a device's rows is the row of its channel `k`. */
  lemma {:induction false} ChannelRowsAt(chs: seq<Channel>, recordId: nat, k: nat)
    requires k < |chs|
    ensures |ChannelRows(chs, recordId)| == |chs|
    ensures ChannelRows(chs, recordId)[k] == Row(chs[k], recordId)
  {
    ChannelRowsLength(chs, recordId);
    if k < |chs| - 1 {
      ChannelRowsAt(chs[..|chs| - 1], recordId, k);
    }
  }

  lemma {:induction false} ChannelRowsLength(chs: seq<Channel>, recordId: nat)
    ensures |ChannelRows(chs, recordId)| == |chs|
  {
    if chs != [] {
      ChannelRowsLength(chs[..|chs| - 1], recordId);
    }
  }

  /** A log writes exactly one row per channel. */
  lemma {:induction false} DataRowsCount(devices: seq<Device>, recordId: nat)
    ensures |DataRows(devices, recordId)| == TotalChannels(devices)
  {
    if devices != [] {
      DataRowsCount(devices[..|devices| - 1], recordId);
      ChannelRowsLength(devices[|devices| - 1].channels, recordId);
    }
  }

  /** Logging keeps record keys increasing and every data row pointing at an existing record. */
  lemma AfterLogValid(db: Db, dd: DeviceData, timestamp: int)
    requires DbValid(db)
    ensures DbValid(AfterLog(db, dd, timestamp))
    ensures |AfterLog(db, dd, timestamp).records| == |db.records| + 1
  {
    var id := NextRecordId(db.records);
    var db' := AfterLog(db, dd, timestamp);
    var rows := DataRows(dd.devices, id);
    assert db'.records[|db.records|].id == id;
    forall k | 0 <= k < |db'.data| ensures HasRecord(db'.records, db'.data[k].recordId) {
      if k < |db.data| {
        assert HasRecord(db.records, db.data[k].recordId);
        var i :| 0 <= i < |db.records| && db.records[i].id == db.data[k].recordId;
        assert db'.records[i] == db.records[i];
      } else {
        assert db'.data[k] == rows[k - |db.data|];
      }
    }
  }

  // ---------------------------------------------------------------------------------------------
  // The receive loop, as a function of the frames received

  /** `time.elapsed().as_secs()`: whole seconds since `since`; zero if the clock reads earlier. */
  function ElapsedSecs(since: nat, now: nat): (s: nat)
    ensures s >= 1 <==> now >= since + NANOS_PER_SECOND
  {
    if now >= since then (now - since) / NANOS_PER_SECOND else 0
  }

  /** What the receive loop carries from frame to frame: its timer, the broadcasts, the database. */
  datatype Relay = Relay(timer: nat, sent: seq<Msg>, db: Db)

  /** A frame is logged when it is text, parses as device data, and the timer has run out. */
  predicate LogGate(dec: Decoders, r: Relay, inb: Inbound): (open: bool)
    ensures open <==> && inb.frame.Text?
                      && dec.parseDeviceData(inb.frame.text).Some?
                      && inb.now >= r.timer + LOG_RATE * NANOS_PER_SECOND
  {
    && inb.frame.Text?
    && dec.parseDeviceData(inb.frame.text).Some?
    && ElapsedSecs(r.timer, inb.now) >= LOG_RATE
  }

  /** One iteration of the receive loop. */
  function Step(clientId: string, dec: Decoders, r: Relay, inb: Inbound): (r': Relay)
    ensures r.sent <= r'.sent && |r'.sent| <= |r.sent| + 1
    ensures r.db.records <= r'.db.records && r.db.data <= r'.db.data
  {
    match inb.frame
    case Binary(bytes) => r.(sent := r.sent + [Msg(clientId, dec.utf8Lossy(bytes))])
    case Text(text) =>
      var logged :=
        if LogGate(dec, r, inb) then
          r.(db := AfterLog(r.db, dec.parseDeviceData(text).value, inb.timestamp), timer := inb.resetAt)
        else r;
      logged.(sent := logged.sent + [Msg(clientId, text)])
    case _ => r
  }

  function Run(clientId: string, dec: Decoders, r: Relay, frames: seq<Inbound>): (r': Relay)
    ensures r.sent <= r'.sent && r.db.records <= r'.db.records && r.db.data <= r'.db.data
  {
    if frames == [] then r else Step(clientId, dec, Run(clientId, dec, r, frames[..|frames| - 1]), frames[|frames| - 1])
  }

  /** The messages a connection broadcasts: one per text or binary frame, in order. */
  function Broadcasts(clientId: string, dec: Decoders, frames: seq<Inbound>): seq<Msg> {
    if frames == [] then []
    else
      var last := frames[|frames| - 1];
      Broadcasts(clientId, dec, frames[..|frames| - 1])
      + match last.frame
        case Text(text) => [Msg(clientId, text)]
        case Binary(bytes) => [Msg(clientId, dec.utf8Lossy(bytes))]
        case _ => []
  }

  /** A frame changes the database exactly when it passes the gate, and then adds one record. */
  lemma StepLogsIff(clientId: string, dec: Decoders, r: Relay, inb: Inbound)
    ensures Step(clientId, dec, r, inb).db != r.db <==> LogGate(dec, r, inb)
    ensures LogGate(dec, r, inb) ==> |Step(clientId, dec, r, inb).db.records| == |r.db.records| + 1
  {
  }

  /** The timer is reset only by a log, and then to the clock reading after it. */
  lemma StepTimer(clientId: string, dec: Decoders, r: Relay, inb: Inbound)
    ensures Step(clientId, dec, r, inb).timer == if LogGate(dec, r, inb) then inb.resetAt else r.timer
  {
  }

  /** Every text and binary frame is broadcast, tagged with the connection's id, logged or not. */
  lemma {:induction false} RunBroadcasts(clientId: string, dec: Decoders, r: Relay, frames: seq<Inbound>)
    ensures Run(clientId, dec, r, frames).sent == r.sent + Broadcasts(clientId, dec, frames)
  {
    if frames != [] {
      RunBroadcasts(clientId, dec, r, frames[..|frames| - 1]);
    }
  }

  /** Frames that are not text (binary, ping, pong, close) never touch the database or the timer. */
  lemma {:induction false} NonTextNeverLogged(clientId: string, dec: Decoders, r: Relay, frames: seq<Inbound>)
    requires forall k :: 0 <= k < |frames| ==> !frames[k].frame.Text?
    ensures Run(clientId, dec, r, frames).db == r.db
    ensures Run(clientId, dec, r, frames).timer == r.timer
  {
    if frames != [] {
      NonTextNeverLogged(clientId, dec, r, frames[..|frames| - 1]);
    }
  }

  /** Logging preserves the database's integrity over any run. */
  lemma {:induction false} RunKeepsDbValid(clientId: string, dec: Decoders, r: Relay, frames: seq<Inbound>)
    requires DbValid(r.db)
    ensures DbValid(Run(clientId, dec, r, frames).db)
  {
    if frames != [] {
      var before := Run(clientId, dec, r, frames[..|frames| - 1]);
      RunKeepsDbValid(clientId, dec, r, frames[..|frames| - 1]);
      var inb := frames[|frames| - 1];
      if LogGate(dec, before, inb) {
        AfterLogValid(before.db, dec.parseDeviceData(inb.frame.text).value, inb.timestamp);
      }
    }
  }

  /**
   * The rate limit: when the timer is never reset to a reading earlier than the check that
   * triggered the log, each log moves the timer on by at least one second, so `n` logs take at
   * least `n` seconds of clock time.
   */
  lemma {:induction false} LogRateBound(clientId: string, dec: Decoders, r: Relay, frames: seq<Inbound>)
    requires forall k :: 0 <= k < |frames| ==> frames[k].now <= frames[k].resetAt
    ensures |Run(clientId, dec, r, frames).db.records| >= |r.db.records|
    ensures (|Run(clientId, dec, r, frames).db.records| - |r.db.records|) * NANOS_PER_SECOND
            <= Run(clientId, dec, r, frames).timer - r.timer
  {
    if frames != [] {
      var before := Run(clientId, dec, r, frames[..|frames| - 1]);
      LogRateBound(clientId, dec, r, frames[..|frames| - 1]);
      var inb := frames[|frames| - 1];
      StepLogsIff(clientId, dec, before, inb);
    }
  }

  // ---------------------------------------------------------------------------------------------
  // Forwarding to one client

  /** The messages a connection's send task forwards: those of every other client, in order. */
  function Forwarded(own: string, inbox: seq<Msg>): (out: seq<Msg>)
    ensures |out| <= |inbox| && forall k :: 0 <= k < |out| ==> out[k].clientId != own
  {
    if inbox == [] then []
    else Forwarded(own, inbox[..|inbox| - 1]) + (if inbox[|inbox| - 1].clientId != own then [inbox[|inbox| - 1]] else [])
  }

  /** A message is forwarded exactly when it comes from another client. */
  lemma {:induction false} ForwardedMembership(own: string, inbox: seq<Msg>, m: Msg)
    ensures m in Forwarded(own, inbox) <==> m in inbox && m.clientId != own
  {
    if inbox != [] {
      ForwardedMembership(own, inbox[..|inbox| - 1], m);
      assert inbox == inbox[..|inbox| - 1] + [inbox[|inbox| - 1]];
    }
  }

  lemma {:induction false} ForwardedAppend(own: string, a: seq<Msg>, b: seq<Msg>)
    ensures Forwarded(own, a + b) == Forwarded(own, a) + Forwarded(own, b)
    decreases |b|
  {
    if b != [] {
      assert (a + b)[..|a + b| - 1] == a + b[..|b| - 1];
      ForwardedAppend(own, a, b[..|b| - 1]);
    } else {
      assert a + b == a;
    }
  }

  /** A connection never gets its own broadcasts back, and gets every broadcast of another one. */
  lemma {:induction false} NoSelfEcho(sender: string, receiver: string, dec: Decoders, frames: seq<Inbound>)
    ensures sender == receiver ==> Forwarded(receiver, Broadcasts(sender, dec, frames)) == []
    ensures sender != receiver ==> Forwarded(receiver, Broadcasts(sender, dec, frames)) == Broadcasts(sender, dec, frames)
  {
    if frames != [] {
      var init := Broadcasts(sender, dec, frames[..|frames| - 1]);
      var last := Broadcasts(sender, dec, frames) [|init|..];
      NoSelfEcho(sender, receiver, dec, frames[..|frames| - 1]);
      assert Broadcasts(sender, dec, frames) == init + last;
      ForwardedAppend(receiver, init, last);
      if last != [] {
        assert last == [last[0]] && last[0].clientId == sender;
        assert Forwarded(receiver, last) == Forwarded(receiver, last[..0]) + (if sender != receiver then last else []);
      }
    }
  }

  // ---------------------------------------------------------------------------------------------
  // The shared state

  class AppState {
    /** `client_set`: the ids of the connected clients. */
    var clientSet: set<string>
    /** Every message handed to the broadcast channel, in order. */
    var sent: seq<Msg>
    var db: Db

    ghost predicate Valid()
      reads this
    {
      DbValid(db)
    }

    /** The state `main` starts from: no client, nothing broadcast, the database as found. */
    constructor (db0: Db)
      requires DbValid(db0)
      ensures Valid() && clientSet == {} && sent == [] && db == db0
    {
      clientSet := {};
      sent := [];
      db := db0;
    }

    /** `is_registered`: whether `id` was already known; it is registered afterwards either way. */
    method IsRegistered(id: string) returns (known: bool)
      requires Valid()
      modifies this
      ensures Valid()
      ensures known <==> id in old(clientSet)
      ensures clientSet == old(clientSet) + {id}
      ensures sent == old(sent) && db == old(db)
    {
      if id !in clientSet {
        clientSet := clientSet + {id};
        known := false;
      } else {
        known := true;
      }
    }

    /** The end of a session: the connection's id leaves the set; no other id changes. */
    method Leave(id: string)
      requires Valid()
      modifies this
      ensures Valid()
      ensures clientSet == old(clientSet) - {id}
      ensures sent == old(sent) && db == old(db)
    {
      clientSet := clientSet - {id};
    }

    /** `log_data`: insert one record, then one data row per channel of each device, in order. */
    method LogData(dd: DeviceData, timestamp: int)
      requires Valid()
      modifies this
      ensures Valid()
      ensures db == AfterLog(old(db), dd, timestamp)
      ensures clientSet == old(clientSet) && sent == old(sent)
    {
      AfterLogValid(db, dd, timestamp);
      var rowId := NextRecordId(db.records);
      db := db.(records := db.records + [Record(rowId, timestamp)]);
      for i := 0 to |dd.devices|
        invariant db.records == old(db.records) + [Record(rowId, timestamp)]
        invariant db.data == old(db.data) + DataRows(dd.devices[..i], rowId)
        invariant clientSet == old(clientSet) && sent == old(sent)
      {
        InsertChannelRows(dd.devices[i].channels, rowId);
        DataRowsSnoc(dd.devices, i, rowId);
        assert old(db.data) + DataRows(dd.devices[..i], rowId) + ChannelRows(dd.devices[i].channels, rowId)
            == old(db.data) + DataRows(dd.devices[..i + 1], rowId);
      }
      assert dd.devices[..|dd.devices|] == dd.devices;
    }

    /** The inner loop of `log_data`: one data row per channel of a device, in order. */
    method InsertChannelRows(chs: seq<Channel>, rowId: nat)
      modifies this
      ensures db == old(db).(data := old(db.data) + ChannelRows(chs, rowId))
      ensures clientSet == old(clientSet) && sent == old(sent)
    {
      for j := 0 to |chs|
        invariant db == old(db).(data := old(db.data) + ChannelRows(chs[..j], rowId))
        invariant clientSet == old(clientSet) && sent == old(sent)
      {
        ChannelRowsSnoc(chs, j, rowId);
        db := db.(data := db.data + [Row(chs[j], rowId)]);
      }
      assert chs[..|chs|] == chs;
    }

    /**
     * The receive task of connection `clientId` over the frames it receives before its stream
     * ends, starting with the timer at `start`; returns the timer's final reading.
     */
    method ReceiveTask(clientId: string, dec: Decoders, frames: seq<Inbound>, start: nat) returns (timer: nat)
      requires Valid()
      modifies this
      ensures Valid()
      ensures Relay(timer, sent, db) == Run(clientId, dec, Relay(start, old(sent), old(db)), frames)
      ensures clientSet == old(clientSet)
    {
      timer := start;
      for i := 0 to |frames|
        invariant Valid()
        invariant Relay(timer, sent, db) == Run(clientId, dec, Relay(start, old(sent), old(db)), frames[..i])
        invariant clientSet == old(clientSet)
      {
        var inb := frames[i];
        match inb.frame {
          case Binary(bytes) =>
            sent := sent + [Msg(clientId, dec.utf8Lossy(bytes))];
          case Text(text) =>
            var msg := Msg(clientId, text);
            var parsed := dec.parseDeviceData(msg.payload);
            if parsed.Some? {
              if ElapsedSecs(timer, inb.now) >= LOG_RATE {
                LogData(parsed.value, inb.timestamp);
                timer := inb.resetAt;
              }
            }
            sent := sent + [msg];
          case _ =>
        }
        assert frames[..i + 1][..i] == frames[..i];
      }
      assert frames[..|frames|] == frames;
    }
  }

  /**
   * The send task of connection `own` over the broadcasts it receives: forward every message of
   * another client, stopping at the first send the socket refuses (`sendOk(k)` is the outcome of
   * the `k`-th send). Returns the messages whose payloads were written.
   */
  method SendTask(own: string, inbox: seq<Msg>, sendOk: nat -> bool) returns (delivered: seq<Msg>)
    ensures |delivered| <= |Forwarded(own, inbox)| && delivered == Forwarded(own, inbox)[..|delivered|]
    ensures forall k :: 0 <= k < |delivered| ==> sendOk(k) && delivered[k].clientId != own
    ensures |delivered| < |Forwarded(own, inbox)| ==> !sendOk(|delivered|)
  {
    delivered := [];
    var i := 0;
    var stopped := false;
    while i < |inbox| && !stopped
      invariant 0 <= i <= |inbox|
      invariant !stopped ==> delivered == Forwarded(own, inbox[..i])
      invariant stopped ==> 0 < i && delivered + [inbox[i - 1]] == Forwarded(own, inbox[..i]) && !sendOk(|delivered|)
      invariant forall k :: 0 <= k < |delivered| ==> sendOk(k)
      decreases |inbox| - i
    {
      var msg := inbox[i];
      assert inbox[..i + 1][..i] == inbox[..i];
      if msg.clientId != own {
        if !sendOk(|delivered|) {
          stopped := true;
        } else {
          delivered := delivered + [msg];
        }
      }
      i := i + 1;
    }
    if stopped {
      ForwardedPrefix(own, inbox, i, delivered, inbox[i - 1]);
    } else {
      assert inbox[..i] == inbox;
    }
  }

  /** What is forwarded from a prefix of the inbox, less its last message, is a proper prefix of all that is forwarded. */
  lemma ForwardedPrefix(own: string, inbox: seq<Msg>, i: nat, delivered: seq<Msg>, m: Msg)
    requires 0 < i <= |inbox| && delivered + [m] == Forwarded(own, inbox[..i])
    ensures |delivered| < |Forwarded(own, inbox)| && delivered == Forwarded(own, inbox)[..|delivered|]
  {
    ForwardedAppend(own, inbox[..i], inbox[i..]);
    assert inbox[..i] + inbox[i..] == inbox;
  }
}
