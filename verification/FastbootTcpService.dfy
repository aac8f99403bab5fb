/** The session object of one TCP client, field by field as the daemon updates it; every session is a run of the machine. */
module FastbootTcpService {
  import opened ByteSeq
  import opened Proto
  import opened Swupdate
  import opened Dialog
  import opened FastbootTcp
  import opened FastbootTcpRuns
  import TcpFraming
  import SwupdateSession
  import Loops = FastbootTcpSession

  /** Nothing is left of a transfer but its detached drain task. */
  predicate TornDown(s: Session) { !s.IsOpen() && !s.Opened() }

  class Service {
    const info: Info
    var sink: SwupdateSession.Sink
    var sessionOpen: bool
    var pendingFlash: bool
    var out: seq<Reply>

    /** The state of the machine when control is at `pc`. */
    function View(pc: Pc): Tcp
      reads this, sink
    {
      Tcp(info, sink.View(), sessionOpen, pendingFlash, pc, out)
    }

    constructor (info: Info)
      ensures View(Commands) == Start(info) && fresh(sink)
    {
      this.info := info;
      sink := new SwupdateSession.Sink(RECV_BUFFER_SIZE);
      sessionOpen, pendingFlash, out := false, false, [];
    }

    method Send(r: Reply)
      modifies this
      ensures View(Commands) == Say(old(View(Commands)), r) && sink == old(sink)
    {
      out := out + [r];
    }

    method WOpen(restart: bool)
      modifies this, sink
      ensures View(Commands) == Dispatch(old(View(Commands)), Command.WOpen, restart) && sink == old(sink)
    {
      var ok := sink.Open(restart);
      if !ok {
        Send(FailOpen);
        return;
      }
      sessionOpen, pendingFlash := true, false;
      Send(Okay);
    }

    /** Signals end of stream, waits for the verdict however long it takes, and answers it. */
    method FinishDownload() returns (ghost trace: seq<Input>)
      modifies this, sink
      ensures sink == old(sink) || fresh(sink)
      ensures Inv(old(sink.View())) ==> Inv(sink.View())
      ensures Leads(FastbootTcp.FinishDownload(old(View(Commands))), trace, View(Commands))
    {
      hide Inv, Leads, DoAll;
      ghost var f := FastbootTcp.FinishDownload(View(Commands));
      var open := sink.IsOpen();
      if !open {
        pendingFlash := false;
        Send(FailClose);
        Nothing(f);
        return [];
      }
      sink.Eof();
      var v, waited := sink.Finished();
      VerdictArrived(f, waited);
      trace := Moves(waited) + [Finished];
      sink := new SwupdateSession.Sink(RECV_BUFFER_SIZE);
      NewInv(RECV_BUFFER_SIZE);
      sessionOpen, pendingFlash := false, false;
      Send(if v.Success? then Okay else FailClose);
    }

    method Flash() returns (ghost trace: seq<Input>)
      modifies this, sink
      ensures sink == old(sink) || fresh(sink)
      ensures Inv(old(sink.View())) ==> Inv(sink.View())
      ensures Leads(Dispatch(old(View(Commands)), Command.Flash, false), trace, View(Commands))
    {
      hide Inv, Leads, FastbootTcp.FinishDownload;
      if !pendingFlash {
        Send(FailFlash);
        Nothing(View(Commands));
        return [];
      }
      Send(InfoWait);
      trace := FinishDownload();
    }

    /** The answer to a download command; `streams` when a data phase follows. */
    method Announce(len: nat, kind: DownloadKind, restart: bool) returns (streams: bool)
      requires Inv(sink.View())
      modifies this, sink
      ensures Inv(sink.View()) && sink == old(sink) && (streams ==> Loops.Usable(sink.View()))
      ensures View(if streams then Streaming(len, true) else Commands) == HandleDownload(old(View(Commands)), len, kind, restart)
      ensures streams ==> len > 0
    {
      hide Inv, DataHeader, Open, Loops.Usable;
      OpenUsable(sink.View(), restart);
      var open := sink.IsOpen();
      if !open {
        var begun := sink.Open(restart);
        if !begun {
          Send(FailOpen);
          return false;
        }
      }
      Send(Raw(DataHeader(len)));
      pendingFlash := kind.Fastboot? || !sessionOpen;
      if len == 0 { Send(Okay); }
      streams := len > 0;
    }

    /** Announces a download and, unless it is empty, takes its data phase off the connection. */
    method Download(conn: TcpFraming.Connection, len: nat, kind: DownloadKind, restart: bool)
      returns (ok: bool, ghost trace: seq<Input>, ghost pc: Pc)
      requires conn.Valid() && Inv(sink.View())
      modifies this, sink, conn
      ensures conn.Valid() && conn.pos >= old(conn.pos) && Inv(sink.View()) && sink == old(sink)
      ensures Leads(HandleDownload(old(View(Commands)), len, kind, restart), trace, View(pc)) && (ok <==> pc.Commands?)
      ensures pc.Dropped? ==> TornDown(sink.View())
    {
      hide Inv, Leads, HandleDownload, TcpFraming.Drain, Loops.Usable, Loops.PayloadOf;
      ghost var a := HandleDownload(View(Commands), len, kind, restart);
      var streams := Announce(len, kind, restart);
      if !streams {
        Nothing(a);
        return true, [], Commands;
      }
      var replies;
      ghost var forwarded;
      ok, replies, forwarded, trace, pc := Loops.StreamDownload(conn, sink, len, restart, a);
      out := out + replies;
    }

    /** `dispatch`: one command frame, with whatever data phase it starts. */
    method Handle(conn: TcpFraming.Connection, cmd: Bytes, restart: bool)
      returns (ok: bool, ghost trace: seq<Input>, ghost pc: Pc)
      requires conn.Valid() && Inv(sink.View())
      modifies this, sink, conn
      ensures conn.Valid() && conn.pos >= old(conn.pos) && Inv(sink.View()) && (sink == old(sink) || fresh(sink))
      ensures Leads(Frame(old(View(Commands)), cmd, restart), trace, View(pc)) && (ok <==> pc.Commands?)
      ensures pc.Dropped? ==> TornDown(sink.View())
    {
      hide Inv, Leads, DataHeader, ParseCommand, HandleDownload, FastbootTcp.FinishDownload, Open;
      ok, pc := true, Commands;
      var parsed := ParseCommand(cmd);
      ghost var f := Frame(View(Commands), cmd, restart);
      Nothing(f);
      trace := [];
      if parsed.None? {
        Send(FailCmd);
        return;
      }
      match parsed.value.0 {
        case WOpen =>
          ApplyKeepsInv(sink.View(), OpOpen(restart));
          WOpen(restart);
        case GetVar(arg) => Send(if arg in info.vars then Raw(info.vars[arg]) else FailCmd);
        case Fetch(_) =>
          Send(Raw(DataHeader(|info.sysinfo|)));
          Send(Raw(info.sysinfo));
          Send(Okay);
        case FetchUnknownPart => Send(FailUnknownPart);
        case Download(len, kind) => ok, trace, pc := Download(conn, len, kind, restart);
        case Flash => trace := Flash();
        case Close => trace := FinishDownload();
        case Unsupported => Send(FailCmd);
      }
    }

    /** A frame together with the command step that takes it. */
    method Serve(conn: TcpFraming.Connection, cmd: Bytes, restart: bool)
      returns (ok: bool, ghost trace: seq<Input>, ghost pc: Pc)
      requires conn.Valid() && Inv(sink.View())
      modifies this, sink, conn
      ensures conn.Valid() && conn.pos >= old(conn.pos) && Inv(sink.View()) && (sink == old(sink) || fresh(sink))
      ensures Leads(old(View(Commands)), trace, View(pc)) && (ok <==> pc.Commands?)
      ensures pc.Dropped? ==> TornDown(sink.View())
    {
      hide Inv, Leads, Frame;
      ghost var t := View(Commands);
      ghost var rest;
      ok, rest, pc := Handle(conn, cmd, restart);
      One(t, Input.Command(cmd, restart));
      trace := [Input.Command(cmd, restart)] + rest;
      Then(t, [Input.Command(cmd, restart)], Frame(t, cmd, restart), rest, View(pc));
    }

    /**
     `run` after the handshake: commands are served until the client leaves or an error drops the connection.
     A restart may become pending at any time.  The session ends, and the whole of it is one run of the machine.
     */
    method Run(conn: TcpFraming.Connection) returns (ok: bool, ghost trace: seq<Input>)
      requires conn.Valid() && Inv(sink.View())
      modifies this, sink, conn
      ensures Leads(old(View(Commands)), trace, View(if ok then Commands else Dropped))
      ensures conn.Valid() && (ok ==> conn.Ahead() == [])
      ensures !ok ==> !sink.View().IsOpen()
    {
      hide Inv, Leads, Swupdate.Abort;
      ghost var t := View(Commands);
      Nothing(t);
      trace := [];
      ghost var pc := Commands;
      ok := true;
      while ok
        invariant conn.Valid() && Inv(sink.View()) && (sink == old(sink) || fresh(sink))
        invariant Leads(t, trace, View(pc)) && (ok ==> pc.Commands?) && (pc.Dropped? ==> TornDown(sink.View()))
        decreases ok, |conn.incoming| - conn.pos
      {
        var frame := conn.RecvCommand();
        if frame.Disconnected? { return true, trace; }
        if frame.Invalid? {
          ok := false;
        } else {
          ghost var before, more := View(Commands), [];
          var restart: bool := *;
          ok, more, pc := Serve(conn, frame.data, restart);
          Then(t, trace, before, more, View(pc));
          trace := trace + more;
        }
      }
      ghost var last := View(pc);
      sink.Abort();
      Dropping(t, trace, last);
      if !pc.Dropped? { trace := trace + [Lost]; }
    }
  }

  /** Tearing down a connection that is already dropped changes nothing. */
  lemma Dropping(t: Tcp, trace: seq<Input>, last: Tcp)
    requires Leads(t, trace, last) && (last.pc.Dropped? ==> TornDown(last.sink))
    ensures Leads(t, if last.pc.Dropped? then trace else trace + [Lost], Drop(last))
  {
    hide Leads;
    if last.pc.Dropped? {
      assert Drop(last) == last;
    } else {
      One(last, Lost);
      Then(t, trace, last, [Lost], Drop(last));
    }
  }

  lemma OpenUsable(s: Session, restart: bool)
    requires Inv(s)
    ensures var r := Open(s, restart); Inv(r.0) && (r.1 ==> Loops.Usable(r.0))
  {
    ApplyKeepsInv(s, OpOpen(restart));
  }
}
