/** The client's I/O loop as an object (processLoop and sendError in conn.go), proved against the functions of
    module ClientRouting. The order in which the table is walked is not determined, and does not matter. */
module ClientLoop {
  import opened Text
  import opened Frames
  import opened ClientRouting
  import opened ClientEvents

  /** The table was walked except for the keys of rest: the channels walked past have f, the others not yet. */
  ghost predicate Walked(st: Client, rest: map<string, Chan>, log: map<Chan, seq<Frame>>, f: Frame) {
    && (forall k | k in rest :: k in st.table && rest[k] == st.table[k])
    && (forall k | k in st.table && k !in rest :: st.table[k] in log && log[st.table[k]] == LogOf(st, st.table[k]) + [f])
    && (forall c | c in st.log && c !in Past(st, rest) :: c in log && log[c] == st.log[c])
    && (forall c | c in log :: c in st.log || c in st.table.Values)
  }

  /** The channels of the keys walked past. */
  ghost function Past(st: Client, rest: map<string, Chan>): set<Chan> {
    set k | k in st.table && k !in rest :: st.table[k]
  }

  lemma WalkStart(st: Client, f: Frame)
    ensures Walked(st, st.table, st.log, f) && Past(st, st.table) == {}
  {
  }

  lemma WalkOn(st: Client, rest: map<string, Chan>, log: map<Chan, seq<Frame>>, f: Frame, k: string)
    requires Sound(st) && !st.done && Walked(st, rest, log, f) && k in rest
    ensures rest[k] in log && rest[k] !in st.shut && rest[k] !in Past(st, rest)
    ensures Walked(st, rest - {k}, log[rest[k] := log[rest[k]] + [f]], f)
    ensures Past(st, rest - {k}) == Past(st, rest) + {rest[k]}
  {
    assert k in st.table && rest[k] == st.table[k];
    assert Past(st, rest - {k}) == Past(st, rest) + {rest[k]};
  }

  lemma WalkedAll(st: Client, log: map<Chan, seq<Frame>>, f: Frame)
    requires Walked(st, map[], log, f) && Injective(st.table)
    ensures log == Broadcast(st, f) && Past(st, map[]) == st.table.Values
  {
    BroadcastOnce(st, f);
    hide Broadcast;
    assert log.Keys == Broadcast(st, f).Keys;
    forall c | c in log ensures log[c] == Broadcast(st, f)[c] {
      if c in st.table.Values {
        var k :| k in st.table && st.table[k] == c;
      }
    }
  }

  lemma SoundParts(st: Client)
    requires Sound(st) && !st.done
    ensures Injective(st.table) && AllOpen(st)
  {
  }

  class Loop {
    var channels: map<string, Chan>
    var shut: set<Chan>
    var log: map<Chan, seq<Frame>>
    var done: bool

    constructor ()
      ensures State() == START
    {
      channels, shut, log, done := map[], {}, map[], false;
    }

    function State(): Client
      reads this
    {
      Client(channels, shut, log, done)
    }

    /** ch <- f */
    method Put(c: Chan, f: Frame)
      requires c !in shut
      modifies this`log
      ensures log == old(log)[c := old(LogOf(State(), c)) + [f]]
    {
      log := log[c := LogOf(State(), c) + [f]];
    }

    /** sendError */
    method SendError()
      requires Sound(State()) && !done
      modifies this`log, this`done
      ensures Next(State()) == Fail(old(State())) && done
    {
      hide Walked, Past, Broadcast, Injective, AllOpen, Sound;
      ghost var st := State();
      SoundParts(st);
      var rest := channels;
      WalkStart(st, OWN_ERROR);
      while rest != map[]
        invariant Walked(st, rest, log, OWN_ERROR)
        invariant channels == st.table && shut == st.shut && done == st.done
        decreases |rest|
      {
        var k :| k in rest;
        WalkOn(st, rest, log, OWN_ERROR, k);
        Put(rest[k], OWN_ERROR);
        rest := rest - {k};
      }
      WalkedAll(st, log, OWN_ERROR);
      done := true;
    }

    /** An ERROR frame from the server. */
    method HandleError(f: Frame)
      requires Sound(State()) && !done
      modifies this`log, this`shut, this`done
      ensures Next(State()) == Abort(old(State()), f) && done
    {
      hide Walked, Past, Broadcast, Injective, AllOpen, Sound;
      ghost var st := State();
      SoundParts(st);
      var rest := channels;
      WalkStart(st, f);
      while rest != map[]
        invariant Walked(st, rest, log, f)
        invariant channels == st.table && done == st.done
        invariant shut == st.shut + Past(st, rest)
        decreases |rest|
      {
        var k :| k in rest;
        WalkOn(st, rest, log, f, k);
        Put(rest[k], f);
        shut := shut + {rest[k]};
        rest := rest - {k};
      }
      WalkedAll(st, log, f);
      done := true;
    }

    method HandleFrame(f: Frame)
      requires Sound(State()) && !done
      modifies this
      ensures Next(State()) == OnFrame(old(State()), f)
    {
      if f.command == "RECEIPT" {
        var id := Find(f.header, "receipt-id");
        if id.None? {
          SendError();
        } else if id.value in channels {
          var ch := channels[id.value];
          Put(ch, f);
          channels := channels - {id.value};
          shut := shut + {ch};
        }
      } else if f.command == "ERROR" {
        HandleError(f);
      } else if f.command == "MESSAGE" {
        var id := Find(f.header, "subscription");
        if id.Some? && id.value in channels {
          Put(channels[id.value], f);
        }
      }
    }

    method HandleRequest(f: Frame, c: Option<Chan>, io: bool)
      requires Sound(State()) && !done && Allowed(State(), Requested(f, c, io))
      modifies this
      ensures Next(State()) == OnRequest(old(State()), f, c, io)
    {
      ghost var st := State();
      RecordSound(st, f, c);
      var receipt := Find(f.header, "receipt");
      if c.Some? && receipt.Some? {
        channels, log := channels[receipt.value := c.value], log[c.value := LogOf(State(), c.value)];
      }
      var sendFrame := true;
      var replyTo := Find(f.header, REPLY_TO);
      if f.command == "SUBSCRIBE" {
        var key := SubscriptionKey(f);
        channels, log := channels[key := c.value], log[c.value := LogOf(State(), c.value)];
        sendFrame := replyTo.None?;
      } else if f.command == "UNSUBSCRIBE" && replyTo.Some? {
        if replyTo.value in channels {
          shut := shut + {channels[replyTo.value]};
          channels := channels - {replyTo.value};
        }
        sendFrame := false;
      }
      assert Next(State()) == Record(st, f, c);
      if sendFrame && !io {
        SendError();
      }
    }

    /** One iteration of processLoop. */
    method Handle(e: Event)
      requires Sound(State()) && !done && Allowed(State(), e)
      modifies this
      ensures Next(State()) == Step(old(State()), e)
      ensures done <==> EndsLoop(e)
    {
      LoopEndsIff(State(), e);
      match e
      case Arrived(f) => HandleFrame(f);
      case Requested(f, c, io) => HandleRequest(f, c, io);
      case Broken => SendError();
    }
  }
}
