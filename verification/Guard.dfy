/** The five-state latch that lets a connection's close be announced at most once, and only
    after a committed open. Models library/guard.cpp. */
module Guard {

  datatype State = None | Opened | Ok | Canceled | Closed {
    function Open(): State { if None? then Opened else this }
    function Commit(): State { if Opened? then Ok else this }
    function Cancel(): State { if Opened? then Canceled else this }
    function Close(): State { if Ok? then Closed else this }
  }

  class Guard {
    var state: State

    constructor ()
      ensures state == None
    {
      state := None;
    }

    method Open() returns (ok: bool)
      modifies this
      ensures ok == old(state).None? && state == old(state).Open()
    {
      if state != None { return false; }
      state := Opened;
      return true;
    }

    method Commit() returns (ok: bool)
      modifies this
      ensures ok == old(state).Opened? && state == old(state).Commit()
    {
      if state != Opened { return false; }
      state := Ok;
      return true;
    }

    method Cancel() returns (ok: bool)
      modifies this
      ensures ok == old(state).Opened? && state == old(state).Cancel()
    {
      if state != Opened { return false; }
      state := Canceled;
      return true;
    }

    method Close() returns (ok: bool)
      modifies this
      ensures ok == old(state).Ok? && state == old(state).Close()
    {
      if state != Ok { return false; }
      state := Closed;
      return true;
    }
  }
}
