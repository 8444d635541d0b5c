/**
 * The MJPEG broadcaster (streamer/streamer.go): rate-limited encoding,
 * the cached latest frame, a set of single-frame client slots where a full
 * slot drops the new frame, and the multipart part each client is sent.
 * The JPEG encoder is a parameter; times are integer nanoseconds.
 */
module Streamer {
  import opened Wrappers
  import opened Text
  import opened Frames

  // ---------------------------------------------------------------------
  // The multipart part layout

  const PartHeader: Bytes := Ascii("--frame\r\nContent-Type: image/jpeg\r\nContent-Length: ")
  const HeaderEnd: Bytes := Ascii("\r\n\r\n")
  const PartEnd: Bytes := Ascii("\r\n")

  /** writeFrame's output for one JPEG: the part header with the byte length, the bytes, CRLF. */
  function Part(b: Bytes): Bytes {
    PartHeader + DecimalBytes(|b|) + HeaderEnd + b + PartEnd
  }

  /** Reads one part from the front of `s`: its JPEG bytes and what follows it. */
  function ParsePart(s: Bytes): (r: Option<(Bytes, Bytes)>)
    ensures r.Some? ==> |r.value.1| < |s|
  {
    if |s| < |PartHeader| || s[..|PartHeader|] != PartHeader then None
    else
      var t := s[|PartHeader|..];
      var k := DigitRun(t);
      if k == 0 then None
      else
        var n := DigitsValue(t[..k]);
        var u := t[k..];
        if |u| < |HeaderEnd| || u[..|HeaderEnd|] != HeaderEnd then None
        else
          var v := u[|HeaderEnd|..];
          if |v| < n + |PartEnd| || v[n..n + |PartEnd|] != PartEnd then None
          else Some((v[..n], v[n + |PartEnd|..]))
  }

  /** The concatenated parts for a list of JPEGs, in order. */
  function Stream(frames: seq<Bytes>): Bytes {
    if frames == [] then [] else Part(frames[0]) + Stream(frames[1..])
  }

  /** Splits a byte stream back into its JPEGs, or None when it is not a sequence of parts. */
  function ParseStream(s: Bytes): Option<seq<Bytes>>
    decreases |s|
  {
    if s == [] then Some([])
    else
      match ParsePart(s)
      case None => None
      case Some((b, rest)) =>
        match ParseStream(rest)
        case None => None
        case Some(bs) => Some([b] + bs)
  }

  /** A run of digits followed by a non-digit is read up to that non-digit. */
  lemma {:induction false} DigitRunStops(d: Bytes, x: Bytes)
    requires forall i :: 0 <= i < |d| ==> IsDigitByte(d[i])
    requires x != [] && !IsDigitByte(x[0])
    ensures DigitRun(d + x) == |d|
  {
    if d != [] {
      assert (d + x)[1..] == d[1..] + x;
      DigitRunStops(d[1..], x);
    }
  }

  /** Splitting a concatenation at the length of its first half gives the halves back. */
  lemma SplitAt(p: Bytes, q: Bytes)
    ensures (p + q)[..|p|] == p && (p + q)[|p|..] == q
  {
  }

  /** What follows the length digits: the blank line, the JPEG, CRLF and the rest. */
  lemma PartTail(b: Bytes, rest: Bytes)
    ensures var u := HeaderEnd + (b + (PartEnd + rest));
            var v := u[|HeaderEnd|..];
            |u| >= |HeaderEnd| && u[..|HeaderEnd|] == HeaderEnd && v == b + (PartEnd + rest) &&
            |v| >= |b| + |PartEnd| && v[|b|..|b| + |PartEnd|] == PartEnd &&
            v[..|b|] == b && v[|b| + |PartEnd|..] == rest
  {
    SplitAt(HeaderEnd, b + (PartEnd + rest));
    var v := b + (PartEnd + rest);
    SplitAt(b, PartEnd + rest);
    SplitAt(PartEnd, rest);
    assert v[|b|..|b| + |PartEnd|] == (PartEnd + rest)[..|PartEnd|];
    assert v[|b| + |PartEnd|..] == (PartEnd + rest)[|PartEnd|..];
  }

  /** The part parser reads back exactly the JPEG that Part wrote, and leaves what followed it. */
  lemma PartRoundTrip(b: Bytes, rest: Bytes)
    ensures ParsePart(Part(b) + rest) == Some((b, rest))
  {
    var d := DecimalBytes(|b|);
    var u := HeaderEnd + (b + (PartEnd + rest));
    var t := d + u;
    var s := Part(b) + rest;
    assert s == PartHeader + t;
    SplitAt(PartHeader, t);
    assert HeaderEnd[0] == 13;
    DigitRunStops(d, u);
    SplitAt(d, u);
    DecimalRoundTrip(|b|);
    PartTail(b, rest);
  }

  /** A part is never empty: it starts with the part header. */
  lemma PartNonEmpty(b: Bytes)
    ensures |Part(b)| > |PartHeader| > 0
  {
  }

  /** One step of ParseStream: a part at the front, then a parsable rest. */
  lemma ParseStreamStep(s: Bytes, b: Bytes, rest: Bytes, bs: seq<Bytes>)
    requires s != [] && ParsePart(s) == Some((b, rest)) && ParseStream(rest) == Some(bs)
    ensures ParseStream(s) == Some([b] + bs)
  {
  }

  /** A part in front of a parsable stream parses to its JPEG in front of that stream's. */
  lemma StreamCons(b: Bytes, rest: Bytes, bs: seq<Bytes>)
    requires ParseStream(rest) == Some(bs)
    ensures ParseStream(Part(b) + rest) == Some([b] + bs)
  {
    PartNonEmpty(b);
    PartRoundTrip(b, rest);
    ParseStreamStep(Part(b) + rest, b, rest, bs);
  }

  /** Parsing the stream of parts gives back every JPEG, in order. */
  lemma {:induction false} StreamRoundTrip(frames: seq<Bytes>)
    ensures ParseStream(Stream(frames)) == Some(frames)
    decreases |frames|
  {
    if frames != [] {
      assert Stream(frames) == Part(frames[0]) + Stream(frames[1..]);
      StreamRoundTrip(frames[1..]);
      StreamCons(frames[0], Stream(frames[1..]), frames[1..]);
      assert [frames[0]] + frames[1..] == frames;
    }
  }

  // ---------------------------------------------------------------------
  // Rate limiting

  /** The default interval: time.Second / 15 in whole nanoseconds. */
  const DefaultInterval: int := 1_000_000_000 / 15

  /** A broadcast at `now` proceeds unless the last one was less than `interval` ago; the zero time is long past. */
  predicate Due(lastSent: Option<int>, now: int, interval: int) {
    lastSent.None? || now - lastSent.value >= interval
  }

  /** The times, among a series of Broadcast calls, at which frames were actually sent. */
  function AcceptedTimes(lastSent: Option<int>, times: seq<int>, interval: int): (r: seq<int>)
    ensures |r| <= |times|
    ensures forall k :: 0 <= k < |r| ==> r[k] in times
    decreases |times|
  {
    if times == [] then []
    else if Due(lastSent, times[0], interval) then [times[0]] + AcceptedTimes(Some(times[0]), times[1..], interval)
    else AcceptedTimes(lastSent, times[1..], interval)
  }

  /** Two accepted broadcasts in a non-decreasing series are at least one interval apart. */
  lemma {:induction false} AcceptedSpaced(lastSent: Option<int>, times: seq<int>, interval: int)
    requires forall k, l :: 0 <= k < l < |times| ==> times[k] <= times[l]
    requires lastSent.Some? ==> forall k :: 0 <= k < |times| ==> lastSent.value <= times[k]
    ensures var r := AcceptedTimes(lastSent, times, interval);
            forall k :: 0 <= k < |r| - 1 ==> r[k + 1] - r[k] >= interval
    ensures var r := AcceptedTimes(lastSent, times, interval);
            lastSent.Some? && r != [] ==> r[0] - lastSent.value >= interval
    decreases |times|
  {
    if times != [] {
      if Due(lastSent, times[0], interval) {
        AcceptedSpaced(Some(times[0]), times[1..], interval);
      } else {
        AcceptedSpaced(lastSent, times[1..], interval);
      }
    }
  }

  /** With interval 100, calls at 0, 50, 120 and 140 send at 0 and 120 only. */
  lemma AcceptedExample()
    ensures AcceptedTimes(None, [0, 50, 120, 140], 100) == [0, 120]
  {
    assert [0, 50, 120, 140][1..] == [50, 120, 140];
    assert [50, 120, 140][1..] == [120, 140];
    assert [120, 140][1..] == [140];
    assert [140][1..] == [];
  }

  // ---------------------------------------------------------------------
  // Clients and the broadcaster

  /** A client's channel of capacity one. */
  class Slot {
    var pending: Option<Bytes>

    constructor ()
      ensures pending == None
    {
      pending := None;
    }
  }

  /** The non-blocking send: an empty slot takes the frame, a full one keeps what it holds. */
  function Offer(pending: Option<Bytes>, b: Bytes): (r: Option<Bytes>)
    ensures r.Some?
    ensures pending.None? <==> r == Some(b) && pending != r
  {
    if pending.None? then Some(b) else pending
  }

  /** The first bytes a new subscriber is written: the cached frame's part, if there is one. */
  function Greeting(latest: Option<Bytes>): Bytes {
    if latest.Some? then Part(latest.value) else []
  }

  /** A subscriber's stream is the cached frame first, then the frames it took from its slot. */
  lemma SessionStream(latest: Option<Bytes>, received: seq<Bytes>)
    ensures Greeting(latest) + Stream(received) == Stream((if latest.Some? then [latest.value] else []) + received)
    ensures ParseStream(Greeting(latest) + Stream(received)) == Some((if latest.Some? then [latest.value] else []) + received)
  {
    var all := (if latest.Some? then [latest.value] else []) + received;
    if latest.Some? {
      assert all[1..] == received;
    } else {
      assert all == received;
    }
    StreamRoundTrip(all);
  }

  class MJPEGStreamer {
    var clients: set<Slot>
    var latestFrame: Option<Bytes>
    var lastSent: Option<int>
    const interval: int

    /** NewMJPEGStreamer: no clients, nothing cached, never sent, about 15 frames a second. */
    constructor ()
      ensures clients == {} && latestFrame == None && lastSent == None
      ensures interval == DefaultInterval && interval == 66_666_666
    {
      clients := {};
      latestFrame := None;
      lastSent := None;
      interval := DefaultInterval;
    }

    /**
     * Broadcast at time `now`: when due, encodes once, caches the bytes, sets
     * lastSent and offers the bytes to every client slot; otherwise nothing changes.
     */
    method Broadcast(frame: Frame, quality: int, now: int, encode: (Frame, int) -> Bytes) returns (sent: bool)
      modifies this, clients
      ensures sent == Due(old(lastSent), now, interval)
      ensures clients == old(clients)
      ensures sent ==> lastSent == Some(now) && latestFrame == Some(encode(frame, quality))
      ensures !sent ==> lastSent == old(lastSent) && latestFrame == old(latestFrame)
      ensures forall c :: c in clients ==>
                c.pending == if sent then Offer(old(c.pending), encode(frame, quality)) else old(c.pending)
    {
      if lastSent.Some? && now - lastSent.value < interval {
        return false;
      }
      var jpeg := encode(frame, quality);
      lastSent := Some(now);
      latestFrame := Some(jpeg);
      var todo := clients;
      while todo != {}
        invariant todo <= clients
        invariant clients == old(clients)
        invariant lastSent == Some(now) && latestFrame == Some(jpeg)
        invariant forall c :: c in clients - todo ==> c.pending == Offer(old(c.pending), jpeg)
        invariant forall c :: c in todo ==> c.pending == old(c.pending)
        decreases todo
      {
        var c :| c in todo;
        if c.pending.None? {
          c.pending := Some(jpeg);
        }
        todo := todo - {c};
      }
      return true;
    }

    /** ServeHTTP's registration: a fresh empty slot joins the clients and the cached frame is written first. */
    method Connect() returns (slot: Slot, greeting: Bytes)
      modifies this
      ensures fresh(slot) && slot.pending == None
      ensures clients == old(clients) + {slot}
      ensures greeting == Greeting(old(latestFrame))
      ensures latestFrame == old(latestFrame) && lastSent == old(lastSent)
    {
      slot := new Slot();
      clients := clients + {slot};
      var latest := latestFrame;
      greeting := if latest.Some? then Part(latest.value) else [];
    }

    /** One turn of the streaming loop: a pending frame is taken from the slot and written as a part. */
    method Receive(slot: Slot) returns (written: Bytes)
      modifies slot
      ensures slot.pending == None
      ensures written == if old(slot.pending).Some? then Part(old(slot.pending).value) else []
    {
      if slot.pending.Some? {
        written := Part(slot.pending.value);
        slot.pending := None;
      } else {
        written := [];
      }
    }

    /** The deferred cleanup of ServeHTTP: exactly this slot leaves the clients. */
    method Disconnect(slot: Slot)
      modifies this
      ensures clients == old(clients) - {slot}
      ensures latestFrame == old(latestFrame) && lastSent == old(lastSent)
    {
      clients := clients - {slot};
    }
  }
}
