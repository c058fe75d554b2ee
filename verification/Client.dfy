/** One connected or recently connected client, updated in place by its setters. */
module Clients {
  import opened Session

  class Client {
    var flagToDisconnect: bool
    var flagToErase: bool
    var discReason: string
    var cntrPings: int
    var ipAddress: string
    var socketNum: int
    var roomId: int
    var nick: string
    var state: State
    var stateLast: State

    function Rec(): ClientRec
      reads this
    {
      ClientRec(nick, ipAddress, socketNum, roomId, state, stateLast, cntrPings, flagToDisconnect, flagToErase)
    }

    constructor (ip: string, sock: int)
      ensures Rec() == NewClient(ip, sock)
    {
      flagToDisconnect, flagToErase, discReason := false, false, "none";
      cntrPings := LONG_PING;
      ipAddress, socketNum := ip, sock;
      roomId, nick := 0, "";
      state, stateLast := New, New;
    }

    method DecreaseInaccessCount()
      modifies this
      ensures Rec() == old(Rec()).(pings := old(cntrPings) - 1)
    {
      cntrPings := cntrPings - 1;
    }

    method ResetInaccessCount()
      modifies this
      ensures Rec() == old(Rec()).(pings := LONG_PING)
    {
      cntrPings := LONG_PING;
    }

    method SetSocket(sock: int)
      modifies this
      ensures Rec() == old(Rec()).(sock := sock)
    {
      socketNum := sock;
    }

    method SetRoomId(id: int)
      modifies this
      ensures Rec() == old(Rec()).(room := id)
    {
      roomId := id;
    }

    /** The last state is remembered only when it was not a matter of reachability. */
    method SetState(s: State)
      modifies this
      ensures Rec() == WithState(old(Rec()), s)
    {
      if !(state == Pinged || state == Lost || state == Disconnected) {
        stateLast := state;
      }
      state := s;
    }

    method SetStateLast(s: State)
      modifies this
      ensures Rec() == old(Rec()).(stateLast := s)
    {
      stateLast := s;
    }

    method SetNick(n: string)
      modifies this
      ensures Rec() == old(Rec()).(nick := n)
    {
      nick := n;
    }

    method SetFlagToDisconnect(value: bool, reason: string)
      modifies this
      ensures Rec() == old(Rec()).(toDisconnect := value)
    {
      flagToDisconnect := value;
      discReason := reason;
    }

    method SetFlagToErase(value: bool)
      modifies this
      ensures Rec() == old(Rec()).(toErase := value)
    {
      flagToErase := value;
    }
  }
}
