/** net/conn/channel-pool.go's object: maps of channels, changed in place. */
module Pools {
  import opened Options
  import opened Decimal
  import opened Labels
  import opened PoolModel
  import Model = ChannelModel
  import opened Channels

  class ChannelPool {
    const answers: bool
    const accept: AcceptQueue?
    var idles: map<string, Channel>
    var actives: map<string, Channel>
    var idx: uint64

    ghost function State(): Pool<Channel>
      reads this
    {
      Pool(idles, actives, idx)
    }

    constructor (answers: bool, accept: AcceptQueue?)
      ensures State() == Pool(map[], map[], 0) && this.answers == answers && this.accept == accept
    {
      this.answers := answers;
      this.accept := accept;
      idles, actives, idx := map[], map[], 0;
    }

    /** Whether a search could find something to take. */
    ghost predicate Takeable(want: Option<string>)
      reads this, idles.Values
    {
      match want
      case Some(k) => k in idles && idles[k].status == Model.Idle
      case None => exists k :: k in idles && idles[k].status == Model.Idle
    }

    /**
      Takes a channel that is idle, found under a label or in any order, or else makes one. `key` is
      the entry that is dropped from the idle map: that of the channel taken, or the last one tried.
     */
    method Get(channelType: string, want: Option<string>, creates: bool) returns (ch: Channel?, ghost key: string)
      modifies this, idles.Values
      ensures ch != null ==>
        && State() == Promote(old(State()).(idx := idx), key, Print(ch.name), ch)
        && ch.status == Model.Active && ch.Valid()
      ensures ch != null && old(Takeable(want)) ==>
        idx == old(idx) && key in old(idles) && ch == old(idles[key]) && old(idles[key].status) == Model.Idle
        && (want.Some? ==> key == want.value)
      ensures ch != null && !old(Takeable(want)) ==>
        idx == Bump(old(idx)) && fresh(ch) && ch.name == Label(channelType, idx)
        && (key in old(idles) || (key == "" && want.None? && old(idles) == map[])) && (want.Some? ==> key == want.value)
      ensures ch == null ==>
        && !old(Takeable(want)) && idles == old(idles) && actives == old(actives)
        && (if want.Some? && want.value !in old(idles) then idx == old(idx) else !creates && idx == Bump(old(idx)))
      ensures forall c :: c in old(idles.Values) && c != ch ==> unchanged(c)
    {
      key := "";
      match want {
        case Some(k) =>
          key := k;
          if k !in idles {
            return null, key;
          }
          ch := idles[k];
          var ok := ch.TakeConn();
          if ok {
            Finish(ch, k);
            return;
          }
          ch := Create(channelType, k, creates);
        case None =>
          var last := "";
          var left := idles.Keys;
          while left != {}
            invariant left <= idles.Keys && State() == old(State())
            invariant last in idles || (last == "" && left == idles.Keys)
            invariant forall k :: k in idles && k !in left ==> idles[k].status != Model.Idle
            invariant forall k :: k in idles ==> unchanged(idles[k])
            decreases left
          {
            var k :| k in left;
            last, key := k, k;
            ch := idles[k];
            var ok := ch.TakeConn();
            if ok {
              Finish(ch, k);
              return;
            }
            left := left - {k};
          }
          key := last;
          ch := Create(channelType, last, creates);
      }
    }

    /** The deferred step of Get. */
    method Finish(ch: Channel, key: string)
      modifies this
      ensures State() == Promote(old(State()), key, Print(ch.name), ch)
    {
      idles := idles - {key};
      actives := actives[Print(ch.name) := ch];
    }

    /** The creation loop of Get: a channel that was just made is idle, so the first turn ends it. */
    method Create(channelType: string, key: string, creates: bool) returns (ch: Channel?)
      modifies this
      ensures idx == Bump(old(idx))
      ensures ch == null <==> !creates
      ensures ch == null ==> State() == old(State()).(idx := idx)
      ensures ch != null ==>
        && fresh(ch) && ch.name == Label(channelType, idx) && ch.status == Model.Active && ch.Valid()
        && State() == Promote(old(State()).(idx := idx), key, Print(ch.name), ch)
    {
      ch := null;
      for i := 0 to 5
        invariant i == 0 && State() == old(State())
      {
        idx := Bump(idx);
        if !creates {
          return null;
        }
        var made := new Channel(false, Label(channelType, idx), null);
        var ok := made.TakeConn();
        if ok {
          Finish(made, key);
          return made;
        }
      }
      assert false;
    }

    /** A data channel from the remote end: kept under its raw label unless that is taken or does not parse. */
    method OnChannelOpen(name: string, p: Platform) returns (failed: bool)
      modifies this
      ensures failed <==> !Parse(name, p).Ok?
      ensures actives == old(actives) && idx == old(idx)
      ensures failed || name in old(actives) || name in old(idles) ==> idles == old(idles)
      ensures !failed && name !in old(actives) && name !in old(idles) ==>
        && name in idles && idles == old(idles)[name := idles[name]] && fresh(idles[name])
        && idles[name].name == Parse(name, p).value && idles[name].status == Model.Idle
        && idles[name].answers && idles[name].accept == accept
    {
      var parsed := Parse(name, p);
      if !parsed.Ok? {
        return true;
      }
      if name in actives {
        return false;
      }
      if name !in idles {
        var ch := new Channel(true, parsed.value, accept);
        idles := idles[name := ch];
      }
      return false;
    }

    /** The loop's step for a channel received from `release`. */
    method Released(ch: Channel)
      modifies this
      ensures State() == Demote(old(State()), Print(ch.name), ch)
    {
      actives := actives - {Print(ch.name)};
      idles := idles[Print(ch.name) := ch];
    }
  }
}
