// The scatter/gather reply queue of a connection: add_msghdr, ensure_iov_space, add_iov and transmit.
module Reply {

  const UDP_MAX_PAYLOAD_SIZE: nat := 1400
  const UDP_HEADER_SIZE: nat := 8
  const IOV_MAX: nat := 1024

  // A stretch of memory to be sent; header marks the room left for a UDP header.
  datatype Iovec = Iovec(bytes: string, header: bool)

  // struct msghdr: msg_iov points to element `at` of the list that was allocated at address `base`.
  datatype Msghdr = Msghdr(base: nat, at: nat, iovlen: nat)

  function Size(s: seq<Iovec>): nat {
    if s == [] then 0 else Size(s[..|s| - 1]) + |s[|s| - 1].bytes|
  }

  function Bytes(s: seq<Iovec>): string {
    if s == [] then "" else Bytes(s[..|s| - 1]) + s[|s| - 1].bytes
  }

  // What the client gets to see: everything but the headers.
  function Payload(s: seq<Iovec>): string {
    if s == [] then "" else Payload(s[..|s| - 1]) + if s[|s| - 1].header then "" else s[|s| - 1].bytes
  }

  function PayloadAll(ws: seq<seq<Iovec>>): string {
    if ws == [] then "" else PayloadAll(ws[..|ws| - 1]) + Payload(ws[|ws| - 1])
  }

  // The windows of messages, one after the other.
  function Start(ws: seq<seq<Iovec>>, i: nat): nat
    requires i <= |ws|
  {
    if i == 0 then 0 else Start(ws, i - 1) + |ws[i - 1]|
  }

  lemma {:induction false} StartSame(ws: seq<seq<Iovec>>, vs: seq<seq<Iovec>>, i: nat)
    requires i <= |ws| && i <= |vs| && forall j :: 0 <= j < i ==> |ws[j]| == |vs[j]|
    ensures Start(ws, i) == Start(vs, i)
  {
    if i > 0 { StartSame(ws, vs, i - 1); }
  }

  lemma {:induction false} StartGrows(ws: seq<seq<Iovec>>, i: nat, j: nat)
    requires i <= j <= |ws|
    ensures Start(ws, i) <= Start(ws, j) && (i < j ==> Start(ws, i) + |ws[i]| <= Start(ws, j))
  {
    if i < j { StartGrows(ws, i, j - 1); }
  }

  lemma AppendSize(s: seq<Iovec>, x: Iovec)
    ensures Size(s + [x]) == Size(s) + |x.bytes| && Bytes(s + [x]) == Bytes(s) + x.bytes
    ensures Payload(s + [x]) == Payload(s) + if x.header then "" else x.bytes
  {
    assert (s + [x])[..|s|] == s;
  }

  // Each message's window starts where the ones before it end, and points into the list in use.
  ghost predicate Places(list: seq<Msghdr>, ws: seq<seq<Iovec>>, base: nat) {
    && |list| == |ws|
    && forall i :: 0 <= i < |ws| ==> list[i] == Msghdr(base, Start(ws, i), |ws[i]|)
  }

  ghost predicate Slices(v: seq<Iovec>, ws: seq<seq<Iovec>>) {
    forall i :: 0 <= i < |ws| ==> Start(ws, i) + |ws[i]| <= |v| && v[Start(ws, i)..Start(ws, i) + |ws[i]|] == ws[i]
  }

  // A UDP message starts with its header, and nothing else is one.
  ghost predicate Headed(udp: bool, w: seq<Iovec>) {
    forall j :: 0 <= j < |w| ==> (w[j].header <==> udp && j == 0) && (w[j].header ==> |w[j].bytes| == UDP_HEADER_SIZE)
  }

  // UDP messages, and the first one of a TCP reply, are kept to one datagram; no message has more than IOV_MAX parts.
  ghost predicate Limited(udp: bool, ws: seq<seq<Iovec>>) {
    forall i :: 0 <= i < |ws| ==>
      && |ws[i]| <= IOV_MAX
      && (udp || i == 0 ==> Size(ws[i]) <= UDP_MAX_PAYLOAD_SIZE)
      && Headed(udp, ws[i])
      && (i < |ws| - 1 ==> ws[i] != [])
  }

  // No message is begun before the one before it is full: of parts, or of bytes where these are limited.
  ghost predicate Packed(udp: bool, ws: seq<seq<Iovec>>) {
    forall i :: 0 <= i < |ws| - 1 ==>
      |ws[i]| == IOV_MAX || ((udp || i == 0) && Size(ws[i]) == UDP_MAX_PAYLOAD_SIZE)
  }

  class Conn {
    const udp: bool
    var iov: seq<Iovec>            // the whole allocation: iovsize elements
    var iovbase: nat               // its address
    var iovused: nat
    var msglist: seq<Msghdr>       // the msgused first of msgsize
    var msgsize: nat
    var msgbytes: nat
    var msgcurr: nat
    ghost var ws: seq<seq<Iovec>>  // the messages
    ghost var queued: string       // all buffers passed to add_iov
    ghost var wire: string         // all bytes to be sent, headers included
    ghost var sent: string         // what sendmsg has taken

    // While a reply is being built.
    ghost predicate Valid()
      reads this
    {
      && iov != [] && msgsize > 0 && |msglist| <= msgsize && msgcurr == 0 && sent == ""
      && Places(msglist, ws, iovbase) && Slices(iov, ws) && Limited(udp, ws) && iovused == Start(ws, |ws|) <= |iov|
      && (ws != [] ==> msgbytes == Size(ws[|ws| - 1]))
      && PayloadAll(ws) == queued
    }

    // process_command: whatever the last reply has left behind, the next one begins with one message.
    method StartReply(moved: nat)
      requires iov != [] && msgsize > 0
      modifies this
      ensures Valid() && Open() && queued == "" && |ws| == 1
    {
      msgcurr, iovused, msglist, msgbytes := 0, 0, [], 0;
      ws, queued, sent := [], "", "";
      AddMsghdr(moved);
    }

    // Room for another element: the list is moved to another address when it is full, and every message is pointed
    // at the new one.
    method EnsureIovSpace(moved: nat)
      requires Valid()
      modifies this`iov, this`iovbase, this`msglist
      ensures Valid() && iovused < |iov| && |msglist| == |old(msglist)|
    {
      hide Limited, Start, PayloadAll, Size, Slices, Places;
      if iovused >= |iov| {
        ghost var v := iov;
        iov := iov + seq(|iov|, i => Iovec("", false));
        iovbase := moved;
        Moved(v, iov, ws);
        PlacesLength(msglist, ws, old(iovbase));
        msglist := Repoint(msglist, moved, ws, old(iovbase));
      }
    }

    // Point all the msghdr structures at the new list.
    static method Repoint(list0: seq<Msghdr>, moved: nat, ghost ws: seq<seq<Iovec>>,
        ghost base: nat) returns (list: seq<Msghdr>)
      requires Places(list0, ws, base)
      ensures Places(list, ws, moved) && |list| == |list0|
    {
      hide Start;
      list := list0;
      var i, iovnum := 0, 0;
      StartZero(ws);
      while i < |list|
        invariant i <= |list0| == |list| == |ws| && iovnum == Start(ws, i)
        invariant forall j :: 0 <= j < i ==> list[j] == list0[j].(base := moved)
        invariant forall j :: i <= j < |list| ==> list[j] == list0[j]
      {
        list := list[i := list[i].(base := moved, at := iovnum)];
        StartNext(ws, i);
        iovnum := iovnum + list[i].iovlen;
        i := i + 1;
      }
    }

    // ensure_iov_space, and a new element at the end of the last message
    method AddFragment(x: Iovec, moved: nat)
      requires Valid() && ws != [] && |ws[|ws| - 1]| < IOV_MAX
      requires udp || |ws| == 1 ==> msgbytes + |x.bytes| <= UDP_MAX_PAYLOAD_SIZE
      requires x.header <==> udp && ws[|ws| - 1] == []
      requires x.header ==> |x.bytes| == UDP_HEADER_SIZE
      modifies this
      ensures Valid() && ws == old(Grown(ws, x)) && queued == old(queued) + (if x.header then "" else x.bytes)
      ensures msgbytes == old(msgbytes) + |x.bytes|
    {
      hide Start, PayloadAll, Size, Slices, Places, Limited, Payload, Grown;
      EnsureIovSpace(moved);
      PlacesLength(msglist, ws, iovbase);
      FragmentAdded(udp, iov, msglist, ws, iovbase, x);
      var m := |msglist| - 1;
      iov := iov[msglist[m].at + msglist[m].iovlen := x];
      msgbytes := msgbytes + |x.bytes|;
      iovused := iovused + 1;
      msglist := msglist[m := msglist[m].(iovlen := msglist[m].iovlen + 1)];
      ws := Grown(ws, x);
      queued := queued + if x.header then "" else x.bytes;
    }

    // The next message; in UDP it starts with room for the header, which add_iov(c, NULL, UDP_HEADER_SIZE) makes.
    method AddMsghdr(moved: nat)
      requires Valid() && (ws == [] || ws[|ws| - 1] != [])
      modifies this
      ensures Valid() && queued == old(queued) && |ws| == |old(ws)| + 1
      ensures Open() && |ws[|ws| - 1]| <= 1 && msgbytes == (if udp then UDP_HEADER_SIZE else 0)
          && ws[..|ws| - 1] == old(ws)
    {
      hide Start, PayloadAll, Size, Slices, Places, Limited, Payload, Grown;
      PlacesLength(msglist, ws, iovbase);
      NewMessage(udp, iov, msglist, ws, iovbase);
      if |msglist| == msgsize { msgsize := msgsize * 2; }
      msglist := msglist + [Msghdr(iovbase, iovused, 0)];
      msgbytes := 0;
      ws := ws + [[]];
      if udp {
        GrownFresh(old(ws), Room());
        AddFragment(Room(), moved);
      }
    }

    // One turn of the loop of add_iov; what did not fit into the datagram is left.
    method AddPart(buf: string, moved: nat) returns (rest: string)
      requires Valid() && Open()
      modifies this
      ensures Valid() && Open() && queued + rest == old(queued) + buf && (rest != "" ==> |rest| < |buf|)
      ensures rest != "" ==> msgbytes == UDP_MAX_PAYLOAD_SIZE
      ensures old(Packed(udp, ws)) ==> Packed(udp, ws)
    {
      hide Start, PayloadAll, Size, Slices, Places, Limited, Payload, Packed;
      ghost var us := ws;
      LastLength(msglist, ws, iovbase);
      LastLimit(udp, ws);
      FullNotEmpty(ws[|ws| - 1]);
      var limitToMtu := udp || |msglist| == 1;
      var m := msglist[|msglist| - 1];
      if m.iovlen == IOV_MAX || (limitToMtu && msgbytes >= UDP_MAX_PAYLOAD_SIZE) {
        AddMsghdr(moved);
        if Packed(udp, us) { NewPacked(udp, us, ws); }
      }
      ghost var vs := ws;
      var leftover :=
        if limitToMtu && |buf| + msgbytes > UDP_MAX_PAYLOAD_SIZE then |buf| + msgbytes - UDP_MAX_PAYLOAD_SIZE else 0;
      var len := |buf| - leftover;
      AddFragment(Iovec(buf[..len], false), moved);
      if Packed(udp, vs) { GrownPacked(udp, vs, Iovec(buf[..len], false)); }
      rest := buf[len..];
      assert queued + rest == old(queued) + buf by { assert buf[..len] + buf[len..] == buf; }
    }

    // There is a message to add to.
    ghost predicate Open()
      reads this
    {
      ws != [] && (udp ==> ws[|ws| - 1] != [])
    }

    method AddIov(buf: string, moved: nat)
      requires Valid() && Open()
      modifies this
      ensures Valid() && Open() && queued == old(queued) + buf
      ensures old(Packed(udp, ws)) ==> Packed(udp, ws)
    {
      hide Start, PayloadAll, Size, Slices, Places, Limited, Payload, Packed;
      var rest := AddPart(buf, moved);
      while rest != ""
        invariant Valid() && Open() && queued + rest == old(queued) + buf
        invariant old(Packed(udp, ws)) ==> Packed(udp, ws)
        decreases |rest|
      {
        rest := AddPart(rest, moved);
      }
    }

    // ---- sending ----

    // While a reply is being sent: windows shrink from the front, none reaches into another, and what was sent and what
    // remains make up all there was to send.
    ghost predicate Sending()
      reads this
    {
      msgcurr <= |msglist| && Shrunk(iov, msglist, ws) && sent + BytesAll(ws[msgcurr..]) == wire
    }

    // What is still to be sent.
    ghost function Pending(): string
      reads this
      requires msgcurr <= |ws|
    {
      BytesAll(ws[msgcurr..])
    }

    // sendmsg has answered res for the current message, that is, it has taken its first res bytes when res > 0.
    method Transmit(res: int, wouldBlock: bool) returns (r: Sent)
      requires Sending() && (msgcurr < |msglist| ==> res <= Size(ws[Current()]))
      modifies this
      ensures Sending() && |ws| == |old(ws)| && wire == old(wire) && queued == old(queued)
      ensures sent + Pending() == wire && old(sent) <= sent
      ensures r == Complete <==> old(msgcurr) >= |ws| || (old(msgcurr) == |ws| - 1 && old(ws)[|ws| - 1] == [])
      ensures r == Complete ==> Pending() == "" && sent == wire
      ensures r == Incomplete <==> r != Complete && res > 0
      ensures r == SoftError <==> r != Complete && res == -1 && wouldBlock
      ensures |sent| == |old(sent)| + if r == Incomplete then res else 0
      ensures r == Incomplete ==>
        old(msgcurr) < |old(ws)| && msgcurr == old(Current()) && ws == old(ws)[msgcurr := Rest(old(ws)[msgcurr], res)]
      ensures r != Incomplete ==> ws == old(ws) && msgcurr >= old(msgcurr)
    {
      hide Size, Bytes, BytesAll, Rest;
      ShrunkAt(iov, msglist, ws);
      NonePending(ws);
      if msgcurr < |msglist| && msglist[msgcurr].iovlen == 0 {
        SkipEmpty(ws, msgcurr);
        msgcurr := msgcurr + 1;
      }
      if msgcurr >= |msglist| { return Complete; }
      if res > 0 {
        Advance(res);
        return Incomplete;
      }
      return if res == -1 && wouldBlock then SoftError else HardError;
    }

    // ---- from building to sending ----

    // build_udp_headers: a header is written where each message's window starts, which numbers the message. It is run
    // when the reply is finished, and again whenever transmit is about to look at the first message.
    method BuildUdpHeaders(requestId: nat)
      requires udp && Shrunk(iov, msglist, ws)
      modifies this`iov, this`ws
      ensures Shrunk(iov, msglist, ws) && ws == Reheaded(old(ws), requestId)
    {
      hide Shrunk, UdpHeader, Reheaded;
      ghost var v := iov;
      ShrunkAt(iov, msglist, ws);
      var i: nat := 0;
      while i < |msglist|
        invariant i <= |msglist| == |ws| && |iov| == |v| && ws == old(ws)
        invariant WrittenUpTo(v, iov, msglist, ws, requestId, i)
      {
        WriteNext(v, iov, msglist, ws, requestId, i);
        if msglist[i].at < |iov| { iov := iov[msglist[i].at := Header(requestId, i, |msglist|)]; }
        i := i + 1;
      }
      HeadersWritten(v, iov, msglist, ws, requestId);
      ws := Reheaded(ws, requestId);
    }

    // The reply is finished, and the connection goes to conn_mwrite.
    method StartSending(requestId: nat)
      requires Valid() && Open()
      modifies this`iov, this`ws, this`wire
      ensures Sending() && msgcurr == 0 && sent == "" && |ws| == |old(ws)| && Pending() == wire && queued == old(queued)
      ensures Concat(Payloads(ws)) == queued
      ensures forall i: nat :: i < |ws| ==>
        Bytes(ws[i]) == (if udp then UdpHeader(requestId, i, |ws|) else "") + Payloads(ws)[i]
      ensures forall i: nat :: i < |ws| && (udp || i == 0) ==> |Bytes(ws[i])| <= UDP_MAX_PAYLOAD_SIZE
      ensures !udp ==> wire == queued
      ensures Intact(requestId)
    {
      hide Start, PayloadAll, Size, Slices, Places, Limited, Payload, UdpHeader, Payloads, Concat, BytesAll, Shrunk,
          Bytes, Reheaded;
      BuiltIsShrunk(iov, msglist, ws, iovbase);
      ConcatPayloads(ws);
      if udp {
        AllHeaded(ws);
        ReheadedKeeps(ws, requestId);
        BuildUdpHeaders(requestId);
        ReheadedTwice(old(ws), requestId);
      }
      forall i: nat | i < |ws|
        ensures Bytes(ws[i]) == (if udp then UdpHeader(requestId, i, |ws|) else "") + Payloads(ws)[i]
        ensures udp || i == 0 ==> |Bytes(ws[i])| <= UDP_MAX_PAYLOAD_SIZE
      {
        MessageIs(udp, ws, i);
      }
      if !udp { PlainIsQueued(ws); }
      assert ws[0..] == ws;
      wire := BytesAll(ws);
    }

    // As long as the first message is the current one its window starts with its header, or is empty.
    ghost predicate Intact(requestId: nat)
      reads this
    {
      udp && msgcurr == 0 ==> Reheaded(ws, requestId) == ws
    }

    // A datagram is taken whole or not at all; what counts is the first one.
    ghost predicate TakesWhole(answers: seq<(int, bool)>)
      reads this
    {
      udp && msgcurr == 0 && ws != [] && ws[0] != [] && answers != [] && answers[0].0 > 0 ==>
        answers[0].0 >= Size(ws[0])
    }

    // drive_machine in conn_mwrite, for whatever the kernel answers: how much of the message it is willing to take, and
    // whether it would block. It stops when the reply is through, the socket is full or the connection is given up.
    // Headers written over a message that was cut change what goes on the wire.
    method SendReply(requestId: nat, answers: seq<(int, bool)>) returns (r: Sent)
      requires Sending()
      modifies this
      ensures Sending() && queued == old(queued) && old(sent) <= sent <= wire
      ensures r == Complete ==> sent == wire
      ensures r == SoftError ==> exists k: nat :: k < |answers| && answers[k] == (-1, true)
      ensures old(Intact(requestId) && TakesWhole(answers)) ==> wire == old(wire) && Intact(requestId)
    {
      hide Size, Bytes, BytesAll, Shrunk, Reheaded, Rest;
      var i := 0;
      r := Incomplete;
      ghost var whole := Intact(requestId) && TakesWhole(answers);
      while i < |answers| && r == Incomplete
        invariant i <= |answers| && Sending() && queued == old(queued) && old(sent) <= sent
        invariant r == Complete ==> sent == wire
        invariant r == SoftError ==> i > 0 && answers[i - 1] == (-1, true)
        invariant whole ==> wire == old(wire) && Intact(requestId) && (i == 0 ==> TakesWhole(answers))
        invariant whole && i > 0 && r == Incomplete && udp && msgcurr == 0 ==> ws != [] && ws[0] == []
      {
        r := SendMore(requestId, answers[i].0, answers[i].1);
        i := i + 1;
      }
      ShrunkAt(iov, msglist, ws);
      assert sent + Pending() == wire;
    }

    // One turn: headers, and transmit.
    method SendMore(requestId: nat, willing: int, wouldBlock: bool) returns (r: Sent)
      requires Sending()
      modifies this
      ensures Sending() && queued == old(queued) && old(sent) <= sent
      ensures r == Complete ==> sent == wire
      ensures r == SoftError <==> r != Complete && willing == -1 && wouldBlock
      ensures old(Intact(requestId)) ==> wire == old(wire)
      ensures old(Intact(requestId) && TakesWhole([(willing, wouldBlock)])) ==>
        Intact(requestId) && (r == Incomplete && udp && msgcurr == 0 ==> ws != [] && ws[0] == [])
    {
      hide Size, Bytes, BytesAll, Shrunk, Reheaded, Rest;
      if udp && msgcurr == 0 {
        BuildUdpHeaders(requestId);
        ReheadedTwice(old(ws), requestId);
        wire := sent + BytesAll(ws[msgcurr..]);
      }
      ghost var us := ws;
      r := TransmitUpTo(willing, wouldBlock);
      if r == Incomplete && udp && msgcurr == 0 && willing >= Size(us[0]) {
        RestNone(us[0]);
        ReheadedGone(us, requestId);
      }
    }

    // sendmsg takes no more than there is.
    method TransmitUpTo(willing: int, wouldBlock: bool) returns (r: Sent)
      requires Sending()
      modifies this
      ensures Sending() && wire == old(wire) && queued == old(queued) && old(sent) <= sent
      ensures r == Complete ==> sent == wire
      ensures r == Incomplete ==>
        && old(msgcurr) < |old(ws)| && willing > 0 && msgcurr == old(Current())
        && ws == old(ws)[msgcurr := Rest(old(ws)[msgcurr], Least(willing, Size(old(ws)[msgcurr])))]
        && old(ws)[msgcurr] != []
      ensures r == SoftError <==> r != Complete && willing == -1 && wouldBlock
      ensures r != Incomplete ==> ws == old(ws) && msgcurr >= old(msgcurr)
    {
      hide Size, Bytes, BytesAll, Shrunk, Rest;
      ShrunkAt(iov, msglist, ws);
      var res := willing;
      if msgcurr < |msglist| {
        var m := if msglist[msgcurr].iovlen == 0 && msgcurr + 1 < |msglist| then msgcurr + 1 else msgcurr;
        var left := WindowSize(msglist[m]);
        assert left == Size(ws[m]);
        EmptySize(ws[m]);
        if res > left { res := left; }
      }
      r := Transmit(res, wouldBlock);
    }

    // How many bytes a message still has.
    method WindowSize(m: Msghdr) returns (n: nat)
      requires m.at + m.iovlen <= |iov|
      ensures n == Size(iov[m.at..m.at + m.iovlen])
    {
      n := 0;
      var i := 0;
      while i < m.iovlen
        invariant i <= m.iovlen && n == Size(iov[m.at..m.at + i])
      {
        assert iov[m.at..m.at + i + 1][..i] == iov[m.at..m.at + i];
        n := n + |iov[m.at + i].bytes|;
        i := i + 1;
      }
    }

    // The message transmit will hand to sendmsg.
    ghost function Current(): nat
      reads this
      requires msgcurr < |ws|
      ensures Current() < |ws|
    {
      if ws[msgcurr] == [] && msgcurr + 1 < |ws| then msgcurr + 1 else msgcurr
    }

    // The elements that were sent whole are dropped from the window.
    method SkipSent(res: nat) returns (m: Msghdr, left: nat, ghost w: seq<Iovec>, ghost taken: string)
      requires Sending() && msgcurr < |msglist| && 0 < res <= Size(ws[msgcurr])
      ensures m.iovlen == |w| && m.at + m.iovlen == msglist[msgcurr].at + msglist[msgcurr].iovlen <= |iov|
      ensures m.at >= msglist[msgcurr].at && iov[m.at..m.at + m.iovlen] == w
      ensures |taken| + left == res && taken + Bytes(w) == Bytes(ws[msgcurr])
      ensures left > 0 ==> w != [] && left < |w[0].bytes| && iov[m.at] == w[0]
      ensures Rest(ws[msgcurr], res) == if left > 0 then [w[0].(bytes := w[0].bytes[left..])] + w[1..] else w
    {
      hide Size, Bytes, BytesAll, Shrunk, Rest;
      ShrunkAt(iov, msglist, ws);
      left, w, taken, m := res, ws[msgcurr], "", msglist[msgcurr];
      while m.iovlen > 0 && left >= |iov[m.at].bytes|
        invariant m.iovlen == |w| && m.at + m.iovlen == msglist[msgcurr].at + msglist[msgcurr].iovlen <= |iov|
        invariant m.at >= msglist[msgcurr].at && iov[m.at..m.at + m.iovlen] == w
        invariant left <= Size(w) && |taken| + left == res && taken + Bytes(w) == Bytes(ws[msgcurr])
        invariant Rest(w, left) == Rest(ws[msgcurr], res)
        decreases m.iovlen
      {
        FirstPart(w);
        RestNext(w, left);
        assert iov[m.at] == w[0];
        taken := taken + w[0].bytes;
        left := left - |iov[m.at].bytes|;
        m := m.(iovlen := m.iovlen - 1, at := m.at + 1);
        w := w[1..];
      }
      EmptySize(w);
      RestCut(w, left);
    }

    // What was sent is taken off the window; an element that was sent in part is cut.
    method Advance(res: nat)
      requires Sending() && msgcurr < |msglist| && 0 < res <= Size(ws[msgcurr])
      modifies this`iov, this`msglist, this`ws, this`sent
      ensures Sending() && |ws| == |old(ws)| && msgcurr == old(msgcurr)
      ensures sent + Pending() == old(sent) + old(Pending()) && |sent| == |old(sent)| + res && old(sent) <= sent
      ensures ws == old(ws)[msgcurr := Rest(old(ws)[msgcurr], res)]
    {
      hide Size, Bytes, BytesAll, Shrunk, Rest;
      ShrunkAt(iov, msglist, ws);
      var m, left;
      ghost var w, taken;
      m, left, w, taken := SkipSent(res);
      ghost var w1 := w;
      if left > 0 {
        var x := iov[m.at];
        CutPart(w, left);
        CutKeeps(iov, msglist, ws, msgcurr, m, w, left);
        w1 := [x.(bytes := x.bytes[left..])] + w[1..];
        Together(taken, x.bytes[..left], Bytes(w1));
        taken := taken + x.bytes[..left];
        iov := iov[m.at := x.(bytes := x.bytes[left..])];
      } else {
        CutNone(iov, msglist, ws, msgcurr, m, w);
      }
      SentPart(sent, ws, msgcurr, w1, taken);
      msglist := msglist[msgcurr := m];
      ws := ws[msgcurr := w1];
      sent := sent + taken;
    }
  }

  lemma FragmentAdded(udp: bool, iov: seq<Iovec>, list: seq<Msghdr>, ws: seq<seq<Iovec>>, base: nat, x: Iovec)
    requires Places(list, ws, base) && Slices(iov, ws) && Limited(udp, ws) && ws != [] && Start(ws, |ws|) < |iov|
    requires |ws[|ws| - 1]| < IOV_MAX
    requires udp || |ws| == 1 ==> Size(ws[|ws| - 1]) + |x.bytes| <= UDP_MAX_PAYLOAD_SIZE
    requires (x.header <==> udp && ws[|ws| - 1] == []) && (x.header ==> |x.bytes| == UDP_HEADER_SIZE)
    ensures |list| == |ws| && list[|list| - 1].at + list[|list| - 1].iovlen == Start(ws, |ws|)
    ensures var m := |list| - 1; var ws1 := Grown(ws, x);
      && Places(list[m := list[m].(iovlen := list[m].iovlen + 1)], ws1, base) && Slices(iov[Start(ws, |ws|) := x], ws1)
      && Limited(udp, ws1) && Start(ws1, |ws1|) == Start(ws, |ws|) + 1 && Size(ws1[m]) == Size(ws[m]) + |x.bytes|
      && PayloadAll(ws1) == PayloadAll(ws) + (if x.header then "" else x.bytes)
  {
    hide Start, PayloadAll, Size, Slices, Places, Limited, Payload;
    PlacesLength(list, ws, base);
    LastPlace(list, ws, base);
    GrownPlaces(list, ws, base, x);
    GrownSlices(iov, ws, x);
    GrownLimited(udp, ws, x);
    GrownPayload(ws, x);
  }

  // The messages with one more part in the last.
  function Grown(ws: seq<seq<Iovec>>, x: Iovec): (r: seq<seq<Iovec>>)
    requires ws != []
    ensures |r| == |ws| && r[|r| - 1] == ws[|ws| - 1] + [x]
  {
    ws[..|ws| - 1] + [ws[|ws| - 1] + [x]]
  }

  lemma GrownFresh(ws: seq<seq<Iovec>>, x: Iovec)
    ensures Grown(ws + [[]], x) == ws + [[x]]
  {
    var vs: seq<seq<Iovec>> := ws + [[]];
    assert vs[..|vs| - 1] == ws && vs[|vs| - 1] == [];
    assert [] + [x] == [x];
  }

  // Where a header will be written.
  function Room(): (x: Iovec)
    ensures x.header && |x.bytes| == UDP_HEADER_SIZE
  {
    Iovec(seq(UDP_HEADER_SIZE, i => ' '), true)
  }

  lemma StartZero(ws: seq<seq<Iovec>>)
    ensures Start(ws, 0) == 0
  {
  }

  lemma StartNext(ws: seq<seq<Iovec>>, i: nat)
    requires i < |ws|
    ensures Start(ws, i + 1) == Start(ws, i) + |ws[i]|
  {
  }

  lemma PlacesLength(list: seq<Msghdr>, ws: seq<seq<Iovec>>, base: nat)
    requires Places(list, ws, base)
    ensures |list| == |ws|
  {
  }

  lemma LastPlace(list: seq<Msghdr>, ws: seq<seq<Iovec>>, base: nat)
    requires Places(list, ws, base) && ws != []
    ensures list[|list| - 1].at + list[|list| - 1].iovlen == Start(ws, |ws|)
  {
    hide Start;
    StartNext(ws, |ws| - 1);
  }

  lemma SlicePrefix(v: seq<Iovec>, v1: seq<Iovec>, a: nat, b: nat)
    requires a <= b <= |v| <= |v1| && v1[..|v|] == v
    ensures v1[a..b] == v[a..b]
  {
    assert v1[..|v|][a..b] == v1[a..b];
  }

  lemma SliceKept(v: seq<Iovec>, n: nat, x: Iovec, a: nat, b: nat)
    requires a <= b <= n < |v|
    ensures v[n := x][a..b] == v[a..b]
  {
  }

  lemma SliceGrown(v: seq<Iovec>, n: nat, x: Iovec, a: nat)
    requires a <= n < |v|
    ensures v[n := x][a..n + 1] == v[a..n] + [x]
  {
  }

  lemma SliceAt(v: seq<Iovec>, ws: seq<seq<Iovec>>, i: nat)
    requires Slices(v, ws) && i < |ws|
    ensures Start(ws, i) + |ws[i]| <= |v| && v[Start(ws, i)..Start(ws, i) + |ws[i]|] == ws[i]
  {
  }

  lemma Moved(v: seq<Iovec>, v1: seq<Iovec>, ws: seq<seq<Iovec>>)
    requires Slices(v, ws) && |v| <= |v1| && v1[..|v|] == v
    ensures Slices(v1, ws)
  {
    hide Start;
    forall i | 0 <= i < |ws|
      ensures Start(ws, i) + |ws[i]| <= |v1| && v1[Start(ws, i)..Start(ws, i) + |ws[i]|] == ws[i]
    {
      SliceAt(v, ws, i);
      SlicePrefix(v, v1, Start(ws, i), Start(ws, i) + |ws[i]|);
    }
  }

  lemma GrownAt(ws: seq<seq<Iovec>>, x: Iovec)
    requires ws != []
    ensures forall i :: 0 <= i < |ws| - 1 ==> Grown(ws, x)[i] == ws[i]
    ensures Grown(ws, x)[|ws| - 1] == ws[|ws| - 1] + [x]
  {
  }

  lemma GrownStart(ws: seq<seq<Iovec>>, x: Iovec)
    requires ws != []
    ensures forall i :: 0 <= i < |ws| ==> Start(Grown(ws, x), i) == Start(ws, i)
    ensures Start(Grown(ws, x), |ws|) == Start(ws, |ws|) + 1
  {
    hide Start, Grown;
    GrownAt(ws, x);
    var vs := Grown(ws, x);
    forall i | 0 <= i < |ws| ensures Start(vs, i) == Start(ws, i) { StartSame(ws, vs, i); }
    StartNext(ws, |ws| - 1);
    StartNext(vs, |ws| - 1);
  }

  lemma GrownPlaces(list: seq<Msghdr>, ws: seq<seq<Iovec>>, base: nat, x: Iovec)
    requires Places(list, ws, base) && ws != []
    ensures var m := |list| - 1; Places(list[m := list[m].(iovlen := list[m].iovlen + 1)], Grown(ws, x), base)
    ensures Start(Grown(ws, x), |ws|) == Start(ws, |ws|) + 1
  {
    hide Start;
    GrownStart(ws, x);
  }

  lemma GrownSlices(v: seq<Iovec>, ws: seq<seq<Iovec>>, x: Iovec)
    requires Slices(v, ws) && ws != [] && Start(ws, |ws|) < |v|
    ensures Slices(v[Start(ws, |ws|) := x], Grown(ws, x))
  {
    hide Start, Grown, Slices;
    GrownStart(ws, x);
    var n := Start(ws, |ws|);
    var v1, vs := v[n := x], Grown(ws, x);
    forall i | 0 <= i < |vs|
      ensures Start(vs, i) + |vs[i]| <= |v1| && v1[Start(vs, i)..Start(vs, i) + |vs[i]|] == vs[i]
    {
      SliceAt(v, ws, i);
      GrownSlice(v, ws, x, i);
    }
    SlicesFrom(v1, vs);
  }

  lemma SlicesFrom(v: seq<Iovec>, ws: seq<seq<Iovec>>)
    requires forall i :: 0 <= i < |ws| ==>
      Start(ws, i) + |ws[i]| <= |v| && v[Start(ws, i)..Start(ws, i) + |ws[i]|] == ws[i]
    ensures Slices(v, ws)
  {
    hide Start;
  }

  lemma GrownSlice(v: seq<Iovec>, ws: seq<seq<Iovec>>, x: Iovec, i: nat)
    requires ws != [] && i < |ws| && Start(ws, |ws|) < |v|
    requires Start(ws, i) + |ws[i]| <= |v| && v[Start(ws, i)..Start(ws, i) + |ws[i]|] == ws[i]
    ensures var w := Grown(ws, x)[i]; var v1 := v[Start(ws, |ws|) := x];
      Start(ws, i) + |w| <= |v1| && v1[Start(ws, i)..Start(ws, i) + |w|] == w
  {
    hide Start;
    StartGrows(ws, i, |ws|);
    StartNext(ws, |ws| - 1);
    if i < |ws| - 1 {
      SliceKept(v, Start(ws, |ws|), x, Start(ws, i), Start(ws, i) + |ws[i]|);
    } else {
      SliceGrown(v, Start(ws, |ws|), x, Start(ws, i));
    }
  }

  lemma GrownLimited(udp: bool, ws: seq<seq<Iovec>>, x: Iovec)
    requires Limited(udp, ws) && ws != [] && |ws[|ws| - 1]| < IOV_MAX
    requires udp || |ws| == 1 ==> Size(ws[|ws| - 1]) + |x.bytes| <= UDP_MAX_PAYLOAD_SIZE
    requires (x.header <==> udp && ws[|ws| - 1] == []) && (x.header ==> |x.bytes| == UDP_HEADER_SIZE)
    ensures Limited(udp, Grown(ws, x)) && Size(Grown(ws, x)[|ws| - 1]) == Size(ws[|ws| - 1]) + |x.bytes|
  {
    AppendSize(ws[|ws| - 1], x);
    HeadedOn(udp, ws[|ws| - 1], x) by { assert Headed(udp, ws[|ws| - 1]); }
    hide Size, Headed;
  }

  lemma HeadedOn(udp: bool, w: seq<Iovec>, x: Iovec)
    requires Headed(udp, w) && (x.header <==> udp && w == []) && (x.header ==> |x.bytes| == UDP_HEADER_SIZE)
    ensures Headed(udp, w + [x])
  {
  }

  lemma GrownPacked(udp: bool, ws: seq<seq<Iovec>>, x: Iovec)
    requires ws != [] && Packed(udp, ws)
    ensures Packed(udp, Grown(ws, x))
  {
    hide Size;
  }

  // A message is added when the last one is full.
  lemma NewPacked(udp: bool, ws: seq<seq<Iovec>>, ws1: seq<seq<Iovec>>)
    requires ws != [] && |ws1| == |ws| + 1 && ws1[..|ws|] == ws && Packed(udp, ws) && Limited(udp, ws)
    requires var n := |ws| - 1;
      |ws[n]| == IOV_MAX || ((udp || n == 0) && Size(ws[n]) >= UDP_MAX_PAYLOAD_SIZE)
    ensures Packed(udp, ws1)
  {
    hide Size;
    assert forall i :: 0 <= i < |ws| ==> ws1[i] == ws[i];
  }

  lemma GrownPayload(ws: seq<seq<Iovec>>, x: Iovec)
    requires ws != []
    ensures PayloadAll(Grown(ws, x)) == PayloadAll(ws) + if x.header then "" else x.bytes
  {
    AppendSize(ws[|ws| - 1], x);
    assert Grown(ws, x)[..|ws| - 1] == ws[..|ws| - 1];
    hide Payload;
  }

  lemma LastLength(list: seq<Msghdr>, ws: seq<seq<Iovec>>, base: nat)
    requires Places(list, ws, base) && ws != []
    ensures |list| == |ws| && list[|list| - 1].iovlen == |ws[|ws| - 1]|
  {
    hide Start;
  }

  lemma LastLimit(udp: bool, ws: seq<seq<Iovec>>)
    requires Limited(udp, ws) && ws != []
    ensures |ws[|ws| - 1]| <= IOV_MAX && (udp || |ws| == 1 ==> Size(ws[|ws| - 1]) <= UDP_MAX_PAYLOAD_SIZE)
  {
    hide Size;
  }

  lemma FullNotEmpty(w: seq<Iovec>)
    ensures |w| == IOV_MAX || Size(w) >= UDP_MAX_PAYLOAD_SIZE ==> w != []
  {
  }

  lemma NewMessage(udp: bool, iov: seq<Iovec>, list: seq<Msghdr>, ws: seq<seq<Iovec>>, base: nat)
    requires Places(list, ws, base) && Slices(iov, ws) && Limited(udp, ws) && (ws == [] || ws[|ws| - 1] != [])
    requires Start(ws, |ws|) <= |iov|
    ensures var ws1 := ws + [[]];
      && Places(list + [Msghdr(base, Start(ws, |ws|), 0)], ws1, base) && Slices(iov, ws1) && Limited(udp, ws1)
      && Start(ws1, |ws1|) == Start(ws, |ws|) && Size(ws1[|ws|]) == 0 && PayloadAll(ws1) == PayloadAll(ws)
  {
    hide Start, PayloadAll, Size, Payload, Slices, Places, Limited;
    NewStart(ws);
    NewPlaces(list, ws, base);
    NewSlices(iov, ws);
    NewLimited(udp, ws);
    NewPayload(ws);
  }

  lemma NewStart(ws: seq<seq<Iovec>>)
    ensures forall i :: 0 <= i <= |ws| ==> Start(ws + [[]], i) == Start(ws, i)
    ensures Start(ws + [[]], |ws| + 1) == Start(ws, |ws|)
  {
    hide Start;
    forall i | 0 <= i <= |ws| ensures Start(ws + [[]], i) == Start(ws, i) { StartSame(ws, ws + [[]], i); }
    StartNext(ws + [[]], |ws|);
  }

  lemma NewPlaces(list: seq<Msghdr>, ws: seq<seq<Iovec>>, base: nat)
    requires Places(list, ws, base)
    ensures Places(list + [Msghdr(base, Start(ws, |ws|), 0)], ws + [[]], base)
  {
    hide Start;
    NewStart(ws);
  }

  lemma NewSlices(v: seq<Iovec>, ws: seq<seq<Iovec>>)
    requires Slices(v, ws) && Start(ws, |ws|) <= |v|
    ensures Slices(v, ws + [[]])
  {
    hide Start;
    var ws1: seq<seq<Iovec>> := ws + [[]];
    forall i | 0 <= i < |ws1|
      ensures Start(ws1, i) + |ws1[i]| <= |v| && v[Start(ws1, i)..Start(ws1, i) + |ws1[i]|] == ws1[i]
    {
      NewStart(ws);
      if i < |ws| { SliceAt(v, ws, i); }
    }
  }

  lemma NewLimited(udp: bool, ws: seq<seq<Iovec>>)
    requires Limited(udp, ws) && (ws == [] || ws[|ws| - 1] != [])
    ensures Limited(udp, ws + [[]]) && Size([]) == 0
  {
  }

  lemma NewPayload(ws: seq<seq<Iovec>>)
    ensures PayloadAll(ws + [[]]) == PayloadAll(ws)
  {
    assert (ws + [[]])[..|ws|] == ws;
  }

  // ---- sending ----

  datatype Sent = Complete | Incomplete | SoftError | HardError

  function BytesAll(ws: seq<seq<Iovec>>): string {
    if ws == [] then "" else Bytes(ws[0]) + BytesAll(ws[1..])
  }

  ghost predicate Shrunk(v: seq<Iovec>, list: seq<Msghdr>, ws: seq<seq<Iovec>>) {
    && |list| == |ws|
    && (forall i :: 0 <= i < |ws| ==>
          list[i].iovlen == |ws[i]| && list[i].at + |ws[i]| <= |v| && v[list[i].at..list[i].at + |ws[i]|] == ws[i])
    && forall i, j :: 0 <= i < j < |ws| ==> list[i].at + list[i].iovlen <= list[j].at
  }

  // The windows of a reply that has been built keep clear of each other.
  lemma BuiltIsShrunk(v: seq<Iovec>, list: seq<Msghdr>, ws: seq<seq<Iovec>>, base: nat)
    requires Places(list, ws, base) && Slices(v, ws)
    ensures Shrunk(v, list, ws)
  {
    hide Start;
    forall i, j | 0 <= i < j < |ws| ensures list[i].at + list[i].iovlen <= list[j].at { StartGrows(ws, i, j); }
  }

  lemma ShrunkAt(v: seq<Iovec>, list: seq<Msghdr>, ws: seq<seq<Iovec>>)
    requires Shrunk(v, list, ws)
    ensures |list| == |ws| && forall i :: 0 <= i < |ws| ==>
      list[i].iovlen == |ws[i]| && list[i].at + |ws[i]| <= |v| && v[list[i].at..list[i].at + |ws[i]|] == ws[i]
  {
  }

  lemma NonePending(ws: seq<seq<Iovec>>)
    ensures BytesAll(ws[|ws|..]) == ""
  {
  }

  lemma SkipEmpty(ws: seq<seq<Iovec>>, i: nat)
    requires i < |ws| && ws[i] == []
    ensures BytesAll(ws[i..]) == BytesAll(ws[i + 1..])
  {
    assert ws[i..][1..] == ws[i + 1..];
  }

  lemma {:induction false} FirstPart(w: seq<Iovec>)
    requires w != []
    ensures Bytes(w) == w[0].bytes + Bytes(w[1..]) && Size(w) == |w[0].bytes| + Size(w[1..])
  {
    if |w| > 1 {
      var u := w[..|w| - 1];
      FirstPart(u);
      assert w[1..][..|w| - 2] == u[1..];
    } else {
      assert w[..0] == w[1..];
    }
  }

  lemma EmptySize(w: seq<Iovec>)
    ensures w == [] ==> Size(w) == 0
  {
  }

  lemma CutPart(w: seq<Iovec>, n: nat)
    requires w != [] && n <= |w[0].bytes|
    ensures var w1 := [w[0].(bytes := w[0].bytes[n..])] + w[1..]; w[0].bytes[..n] + Bytes(w1) == Bytes(w)
  {
    var w1 := [w[0].(bytes := w[0].bytes[n..])] + w[1..];
    FirstPart(w);
    FirstPart(w1);
    assert w1[1..] == w[1..];
    assert w[0].bytes[..n] + w[0].bytes[n..] == w[0].bytes;
  }

  // A window that starts later keeps clear of the others.
  lemma CutNone(v: seq<Iovec>, list: seq<Msghdr>, ws: seq<seq<Iovec>>, i: nat, m: Msghdr, w: seq<Iovec>)
    requires Shrunk(v, list, ws) && i < |ws| && m.iovlen == |w| && m.at >= list[i].at
    requires m.at + m.iovlen == list[i].at + list[i].iovlen && v[m.at..m.at + m.iovlen] == w
    ensures Shrunk(v, list[i := m], ws[i := w])
  {
  }

  lemma CutKeeps(v: seq<Iovec>, list: seq<Msghdr>, ws: seq<seq<Iovec>>, i: nat, m: Msghdr, w: seq<Iovec>, n: nat)
    requires Shrunk(v, list, ws) && i < |ws| && m.iovlen == |w| > 0 && m.at >= list[i].at
    requires m.at + m.iovlen == list[i].at + list[i].iovlen <= |v| && v[m.at..m.at + m.iovlen] == w && n <= |w[0].bytes|
    ensures v[m.at] == w[0]
    ensures var x := v[m.at].(bytes := v[m.at].bytes[n..]); Shrunk(v[m.at := x], list[i := m], ws[i := [x] + w[1..]])
  {
    assert v[m.at] == w[0];
    var x := v[m.at].(bytes := v[m.at].bytes[n..]);
    var v1 := v[m.at := x];
    assert v1[m.at..m.at + m.iovlen] == [x] + w[1..];
    forall j | 0 <= j < |ws| && j != i
      ensures list[j].at + |ws[j]| <= |v1| && v1[list[j].at..list[j].at + |ws[j]|] == ws[j]
    {
      assert v1[list[j].at..list[j].at + |ws[j]|] == v[list[j].at..list[j].at + |ws[j]|];
    }
  }

  lemma SentPart(sent: string, ws: seq<seq<Iovec>>, i: nat, w: seq<Iovec>, taken: string)
    requires i < |ws| && taken + Bytes(w) == Bytes(ws[i])
    ensures (sent + taken) + BytesAll(ws[i := w][i..]) == sent + BytesAll(ws[i..])
  {
    hide Bytes, BytesAll;
    var ws1 := ws[i := w];
    var others := BytesAll(ws[i..][1..]);
    AllOf(ws1[i..]);
    AllOf(ws[i..]);
    assert ws1[i..][1..] == ws[i..][1..];
    Regroup(sent, taken, Bytes(w), others);
  }

  lemma Together(a: string, b: string, c: string)
    ensures (a + b) + c == a + (b + c)
  {
  }

  lemma Regroup(a: string, b: string, c: string, d: string)
    ensures (a + b) + (c + d) == a + ((b + c) + d)
  {
  }

  lemma AllOf(ws: seq<seq<Iovec>>)
    requires ws != []
    ensures BytesAll(ws) == Bytes(ws[0]) + BytesAll(ws[1..])
  {
  }

  // ---- what goes over the wire ----

  function Low(n: nat): char { (n % 256) as char }

  // The frame header of a datagram: request id, sequence number, number of datagrams, and two bytes reserved.
  function UdpHeader(id: nat, i: nat, n: nat): (h: string)
    ensures |h| == UDP_HEADER_SIZE
  {
    [Low(id / 256), Low(id), Low(i / 256), Low(i), Low(n / 256), Low(n), Low(0), Low(0)]
  }

  // A client can put the datagrams in order, and knows when it has them all.
  lemma HeaderReads(id: nat, i: nat, n: nat)
    requires id < 0x10000 && i < 0x10000 && n < 0x10000
    ensures var h := UdpHeader(id, i, n);
      h[0] as nat * 256 + h[1] as nat == id && h[2] as nat * 256 + h[3] as nat == i
          && h[4] as nat * 256 + h[5] as nat == n
  {
  }

  ghost function Payloads(ws: seq<seq<Iovec>>): (r: seq<string>)
    ensures |r| == |ws|
  {
    seq(|ws|, i requires 0 <= i < |ws| => Payload(ws[i]))
  }

  function Concat(parts: seq<string>): string {
    if parts == [] then "" else Concat(parts[..|parts| - 1]) + parts[|parts| - 1]
  }

  lemma {:induction false} ConcatPayloads(ws: seq<seq<Iovec>>)
    ensures Concat(Payloads(ws)) == PayloadAll(ws)
  {
    hide Payload;
    if ws != [] {
      ConcatPayloads(ws[..|ws| - 1]);
      assert Payloads(ws)[..|ws| - 1] == Payloads(ws[..|ws| - 1]);
    }
  }

  lemma AllHeaded(ws: seq<seq<Iovec>>)
    requires Limited(true, ws) && (ws != [] ==> ws[|ws| - 1] != [])
    ensures forall i: nat :: i < |ws| ==> ws[i] != []
  {
    hide Size;
  }

  function Header(id: nat, i: nat, n: nat): Iovec { Iovec(UdpHeader(id, i, n), true) }

  // The messages with a header where each window starts; nothing is written into an empty one.
  function Reheaded(ws: seq<seq<Iovec>>, id: nat): (r: seq<seq<Iovec>>)
    ensures |r| == |ws|
  {
    seq(|ws|, i requires 0 <= i < |ws| => if ws[i] == [] then [] else [Header(id, i, |ws|)] + ws[i][1..])
  }

  lemma ReheadedAt(ws: seq<seq<Iovec>>, id: nat, i: nat)
    requires i < |ws|
    ensures Reheaded(ws, id)[i] == if ws[i] == [] then [] else [Header(id, i, |ws|)] + ws[i][1..]
  {
    hide Header;
  }

  // Headers that are there already are written again.
  lemma ReheadedTwice(ws: seq<seq<Iovec>>, id: nat)
    ensures Reheaded(Reheaded(ws, id), id) == Reheaded(ws, id)
  {
    hide Reheaded, Header;
    var us := Reheaded(ws, id);
    forall i: nat | i < |us| ensures Reheaded(us, id)[i] == us[i] {
      ReheadedAt(ws, id, i);
      ReheadedAt(us, id, i);
    }
  }

  lemma ReheadedGone(ws: seq<seq<Iovec>>, id: nat)
    requires ws != [] && Reheaded(ws, id) == ws
    ensures Reheaded(ws[0 := []], id) == ws[0 := []]
  {
    hide Reheaded, Header;
    var us := ws[0 := []];
    forall i: nat | i < |us| ensures Reheaded(us, id)[i] == us[i] {
      ReheadedAt(ws, id, i);
      ReheadedAt(us, id, i);
    }
  }

  // In a reply that is finished the headers take the room left for them.
  lemma ReheadedKeeps(ws: seq<seq<Iovec>>, id: nat)
    requires Limited(true, ws) && forall i: nat :: i < |ws| ==> ws[i] != []
    ensures Limited(true, Reheaded(ws, id)) && Payloads(Reheaded(ws, id)) == Payloads(ws)
    ensures forall i: nat :: i < |ws| ==>
      Reheaded(ws, id)[i] != [] && Reheaded(ws, id)[i][0].bytes == UdpHeader(id, i, |ws|)
  {
    hide Reheaded, Size, Payload, Headed, UdpHeader;
    var us: seq<seq<Iovec>> := Reheaded(ws, id);
    forall i: nat | i < |ws|
      ensures us[i] != [] && |us[i]| == |ws[i]| && us[i][0].bytes == UdpHeader(id, i, |ws|)
      ensures Headed(true, us[i]) && Size(us[i]) == Size(ws[i]) && Payload(us[i]) == Payload(ws[i])
    {
      ReheadedAt(ws, id, i);
      HeaderSizes(ws[i], Header(id, i, |ws|));
    }
    assert Payloads(us) == Payloads(ws);
  }

  // The headers of the first n messages are written, where they fall into the list, and nothing else.
  ghost predicate WrittenUpTo(v: seq<Iovec>, v1: seq<Iovec>, list: seq<Msghdr>, ws: seq<seq<Iovec>>, id: nat, n: nat) {
    && |v1| == |v| && n <= |list| == |ws|
    && (forall k :: 0 <= k < |v| && (forall i :: 0 <= i < n ==> list[i].at != k) ==> v1[k] == v[k])
    && forall i :: 0 <= i < n && ws[i] != [] ==> list[i].at < |v| && v1[list[i].at] == Header(id, i, |ws|)
  }

  lemma WriteNext(v: seq<Iovec>, v1: seq<Iovec>, list: seq<Msghdr>, ws: seq<seq<Iovec>>, id: nat, n: nat)
    requires Shrunk(v, list, ws) && n < |ws| && WrittenUpTo(v, v1, list, ws, id, n)
    ensures list[n].at < |v1| ==> WrittenUpTo(v, v1[list[n].at := Header(id, n, |list|)], list, ws, id, n + 1)
    ensures list[n].at >= |v1| ==> WrittenUpTo(v, v1, list, ws, id, n + 1)
  {
    hide Header;
    assert forall i :: 0 <= i < n && ws[i] != [] ==> list[i].at < list[i].at + list[i].iovlen <= list[n].at;
  }

  // Only the first part of a window is written: no other window starts in it.
  lemma HeadersWritten(v: seq<Iovec>, v1: seq<Iovec>, list: seq<Msghdr>, ws: seq<seq<Iovec>>, id: nat)
    requires Shrunk(v, list, ws) && WrittenUpTo(v, v1, list, ws, id, |ws|)
    ensures Shrunk(v1, list, Reheaded(ws, id))
  {
    hide Header, Reheaded, WrittenUpTo;
    var us := Reheaded(ws, id);
    forall i: nat | i < |us|
      ensures list[i].iovlen == |us[i]| && list[i].at + |us[i]| <= |v1|
      ensures v1[list[i].at..list[i].at + |us[i]|] == us[i]
    {
      ReheadedAt(ws, id, i);
      WindowWritten(v, v1, list, ws, id, i);
    }
  }

  lemma WindowWritten(v: seq<Iovec>, v1: seq<Iovec>, list: seq<Msghdr>, ws: seq<seq<Iovec>>, id: nat, i: nat)
    requires Shrunk(v, list, ws) && WrittenUpTo(v, v1, list, ws, id, |ws|) && i < |ws|
    ensures list[i].at + |ws[i]| <= |v1|
    ensures var a := list[i].at; ws[i] != [] ==> v1[a..a + |ws[i]|] == [Header(id, i, |ws|)] + ws[i][1..]
  {
    hide Header;
    var a := list[i].at;
    forall k | a < k < a + |ws[i]| ensures v1[k] == v[k] == ws[i][k - a] {
      forall j: nat | j < |ws| ensures list[j].at != k { StartsOutside(v, list, ws, i, j); }
      assert v[a..a + |ws[i]|][k - a] == v[k];
    }
  }

  lemma StartsOutside(v: seq<Iovec>, list: seq<Msghdr>, ws: seq<seq<Iovec>>, i: nat, j: nat)
    requires Shrunk(v, list, ws) && i < |ws| && j < |ws|
    ensures list[j].at <= list[i].at || list[j].at >= list[i].at + |ws[i]|
  {
  }

  // What is left of a message when n bytes of it have been taken.
  function Rest(w: seq<Iovec>, n: nat): seq<Iovec> {
    if w == [] then []
    else if n >= |w[0].bytes| then Rest(w[1..], n - |w[0].bytes|)
    else [w[0].(bytes := w[0].bytes[n..])] + w[1..]
  }

  function Least(a: nat, b: nat): nat { if a < b then a else b }

  lemma RestNext(w: seq<Iovec>, n: nat)
    requires w != [] && n >= |w[0].bytes|
    ensures Rest(w, n) == Rest(w[1..], n - |w[0].bytes|)
  {
  }

  lemma RestCut(w: seq<Iovec>, n: nat)
    requires w == [] || n < |w[0].bytes|
    ensures Rest(w, n) == if w == [] then [] else [w[0].(bytes := w[0].bytes[n..])] + w[1..]
    ensures n == 0 ==> Rest(w, n) == w
  {
  }

  lemma {:induction false} RestNone(w: seq<Iovec>)
    ensures Rest(w, Size(w)) == []
  {
    hide Size;
    if w != [] {
      FirstPart(w);
      RestNone(w[1..]);
    }
  }

  lemma {:induction false} RestSome(w: seq<Iovec>, n: nat)
    requires n < Size(w)
    ensures Rest(w, n) != [] && exists j :: 0 <= j < |w| && Rest(w, n)[0].header == w[j].header
  {
    hide Size;
    EmptySize(w);
    FirstPart(w);
    if n >= |w[0].bytes| {
      RestSome(w[1..], n - |w[0].bytes|);
      var j :| 0 <= j < |w| - 1 && Rest(w, n)[0].header == w[1..][j].header;
      assert w[1..][j] == w[j + 1];
    } else {
      assert Rest(w, n)[0].header == w[0].header;
    }
  }

  // Writing its header once more leaves a message alone if and only if nothing or all of it has been taken: in a
  // datagram that was cut the header replaces what comes next.
  lemma HeaderAgainIff(w: seq<Iovec>, n: nat)
    requires w != [] && Headed(true, w) && n <= Size(w)
    ensures var u := Rest(w, n); (if u == [] then [] else [w[0]] + u[1..]) == u <==> n == 0 || n == Size(w)
  {
    hide Size;
    FirstPart(w);
    if n == Size(w) {
      RestNone(w);
    } else if n < |w[0].bytes| {
      assert Rest(w, n)[0].bytes == w[0].bytes[n..];
    } else {
      RestSome(w[1..], n - |w[0].bytes|);
      assert forall j :: 0 <= j < |w| - 1 ==> !w[1..][j].header;
      assert w[0].header;
    }
  }

  lemma HeaderSizes(w: seq<Iovec>, x: Iovec)
    requires w != [] && Headed(true, w) && x.header && |x.bytes| == UDP_HEADER_SIZE
    ensures var u := [x] + w[1..]; Headed(true, u) && |u| == |w| && Size(u) == Size(w) && Payload(u) == Payload(w)
  {
    hide Size, Payload;
    var u := [x] + w[1..];
    assert u[1..] == w[1..];
    FirstPart(w);
    FirstPart(u);
    FirstPayload(w);
    FirstPayload(u);
  }

  lemma {:induction false} FirstPayload(w: seq<Iovec>)
    requires w != []
    ensures Payload(w) == (if w[0].header then "" else w[0].bytes) + Payload(w[1..])
  {
    if |w| > 1 {
      var u := w[..|w| - 1];
      FirstPayload(u);
      assert w[1..][..|w| - 2] == u[1..];
    } else {
      assert w[..0] == w[1..];
    }
  }

  // A message is its header, in UDP, and its payload.
  lemma MessageIs(udp: bool, ws: seq<seq<Iovec>>, i: nat)
    requires Limited(udp, ws) && i < |ws|
    ensures Bytes(ws[i]) == (if udp && ws[i] != [] then ws[i][0].bytes else "") + Payloads(ws)[i]
    ensures udp || i == 0 ==> |Bytes(ws[i])| <= UDP_MAX_PAYLOAD_SIZE
  {
    hide Size, Bytes, Payload;
    HeaderFirst(udp, ws[i]);
    SizeIsLength(ws[i]);
  }

  lemma {:induction false} SizeIsLength(w: seq<Iovec>)
    ensures |Bytes(w)| == Size(w)
  {
    if w != [] { SizeIsLength(w[..|w| - 1]); }
  }

  lemma HeaderFirst(udp: bool, w: seq<Iovec>)
    requires Headed(udp, w)
    ensures Bytes(w) == (if udp && w != [] then w[0].bytes else "") + Payload(w)
  {
    hide Bytes, Payload;
    if udp && w != [] {
      FirstPart(w);
      FirstPayload(w);
      PlainParts(w[1..]);
    } else {
      PlainParts(w);
    }
  }

  lemma {:induction false} PlainParts(w: seq<Iovec>)
    requires forall j :: 0 <= j < |w| ==> !w[j].header
    ensures Bytes(w) == Payload(w)
  {
    if w != [] { PlainParts(w[..|w| - 1]); }
  }

  lemma {:induction false} LastMessage(ws: seq<seq<Iovec>>)
    requires ws != []
    ensures BytesAll(ws) == BytesAll(ws[..|ws| - 1]) + Bytes(ws[|ws| - 1])
  {
    hide Bytes;
    if |ws| > 1 {
      LastMessage(ws[1..]);
      assert ws[1..][..|ws| - 2] == ws[..|ws| - 1][1..];
    } else {
      assert ws[1..] == [] && ws[..0] == [];
    }
  }

  // In TCP nothing but what was queued is sent.
  lemma {:induction false} PlainIsQueued(ws: seq<seq<Iovec>>)
    requires Limited(false, ws)
    ensures BytesAll(ws) == PayloadAll(ws)
  {
    hide Bytes, Payload, BytesAll, Limited;
    if ws == [] {
      NonePending(ws);
    } else {
      LimitedFront(ws);
      LastMessage(ws);
      PlainIsQueued(ws[..|ws| - 1]);
      HeaderFirst(false, ws[|ws| - 1]);
    }
  }

  lemma LimitedFront(ws: seq<seq<Iovec>>)
    requires Limited(false, ws) && ws != []
    ensures Limited(false, ws[..|ws| - 1]) && Headed(false, ws[|ws| - 1])
  {
    hide Size, Headed;
  }
}
