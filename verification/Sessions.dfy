/** The session object and its handlers, in the order in which the server executes them. */
module Sessions {
  import opened Prelude
  import opened Naming
  import opened Environment
  import Framing
  import Commands
  import LineBuffer
  import Spec = SessionSpec

  class FileRecord {
    var name: string
    var path: string
    var size: Size
    var rest: Size
    var packageRest: Size
    var hash: Int32
    var description: Option<string>
    var permissions: int
    ghost const owner: object

    constructor (f: Spec.File, ghost owner: object)
      ensures View() == f && this.owner == owner
    {
      name, path, size, rest := f.name, f.path, f.size, f.rest;
      packageRest, hash, description, permissions := f.packageRest, f.hash, f.description, f.permissions;
      this.owner := owner;
    }

    ghost function View(): Spec.File
      reads this
    {
      Spec.File(name, path, size, rest, packageRest, hash, description, permissions)
    }
  }

  class Session {
    var mode: Spec.Mode
    var leaving: bool
    var sd: int
    var fd: int
    var file: FileRecord?
    const line: LineBuffer.Buffer
    var uname: Option<string>
    var uid: Int32
    /** The slot of the connection table that holds this session. */
    ghost const slot: int

    ghost function Repr(): set<object>
      reads this
    {
      {this, line, line.cells} + if file == null then {} else {file}
    }

    ghost predicate Valid()
      reads Repr()
    {
      line.Valid() && line.owner == this && (file != null ==> file.owner == this)
    }

    ghost function View(): Spec.Session
      requires Valid()
      reads Repr()
    {
      Spec.Session(mode, leaving, sd, fd, if file == null then None else Some(file.View()), line.Text(), uname, uid)
    }

    ghost function At(host: Host): Spec.Turn
      requires Valid()
      reads Repr(), host
    {
      Spec.Turn(View(), host.m)
    }

    /** `make_new_session` */
    constructor (sd: int, uid: Int32)
      ensures Valid() && fresh(Repr())
      ensures View() == Spec.NewSession(sd, uid) && slot == sd
    {
      mode, leaving, this.sd, fd, file := Spec.LoginUser, false, sd, -1, null;
      uname, this.uid, slot := None, uid, sd;
      line := new LineBuffer.Buffer();
      new;
      line.owner := this;
    }

    // ----- file_p.c -----

    method ClearFile(host: Host)
      requires Valid()
      modifies this, host
      ensures Valid() && Repr() <= old(Repr())
      ensures At(host) == Spec.ClearFile(old(At(host)))
    {
      if file != null {
        if fd > -1 {
          host.m := CloseHandle(host.m, fd);
          fd := -1;
        }
        file := null;
      }
    }

    /** The error branch of `file_upload_write`. */
    method FailUpload(host: Host)
      requires Valid() && file != null
      modifies this, host
      ensures Valid() && Repr() <= old(Repr())
      ensures At(host) == Spec.FailUpload(old(At(host)))
    {
      host.m := CloseHandle(host.m, fd);
      DropUpload(host);
    }

    method FileUpload(host: Host, a: Answers)
      requires Valid() && file != null
      modifies this, file, host
      ensures Valid() && Repr() <= old(Repr())
      ensures At(host) == Spec.FileUpload(old(At(host)), a)
    {
      var chunk := Take(a.data, INBUFSIZE);
      if chunk == [] {
        if file.rest != 0 {
          DropUpload(host);
        }
        mode := Spec.Wait;
        return;
      }
      if file.packageRest < |chunk| {
        WriteAcross(host, Framing.Read(chunk, a.beyond), a);
      } else {
        WriteWithin(host, Framing.Read(chunk, a.beyond), a);
      }
    }

    method WriteWithin(host: Host, r: Framing.Read, a: Answers)
      requires Valid() && file != null && file.packageRest >= |r.chunk|
      modifies this, file, host
      ensures Valid() && Repr() <= old(Repr())
      ensures At(host) == Spec.WithinPackage(old(At(host)), r, a)
    {
      var written := WriteFile(host.m, fd, r.chunk, a.firstWrite);
      if written.None? {
        FailUpload(host);
        return;
      }
      host.m := written.value;
      file.rest := ToSize(file.rest - |r.chunk|);
      file.packageRest := file.packageRest - |r.chunk|;
      FinishUpload();
    }

    method WriteAcross(host: Host, r: Framing.Read, a: Answers)
      requires Valid() && file != null && file.packageRest < |r.chunk|
      modifies this, file, host
      ensures Valid() && Repr() <= old(Repr())
      ensures At(host) == Spec.AcrossPackage(old(At(host)), r, a)
    {
      var written := WriteFile(host.m, fd, r.chunk[..file.packageRest], a.firstWrite);
      if written.None? {
        FailUpload(host);
        return;
      }
      host.m := written.value;
      EndPackage(host, r, a);
    }

    /** The package at hand has been written: either the file is complete, or a descriptor is due. */
    method EndPackage(host: Host, r: Framing.Read, a: Answers)
      requires Valid() && file != null && file.packageRest < |r.chunk|
      modifies this, file, host
      ensures Valid() && Repr() <= old(Repr())
      ensures At(host) == Spec.EndPackage(old(At(host)), r, a)
    {
      ghost var before := At(host);
      file.rest := ToSize(file.rest - file.packageRest);
      assert At(host) == Spec.Turn(Spec.WithCounters(before.s, file.rest, file.packageRest), before.m);
      if file.rest == 0 {
        FinishUpload();
      } else {
        ReadDescriptor(host, r, a);
      }
    }

    /** The end of `file_upload`: nothing missing means that the description comes next. */
    method FinishUpload()
      requires Valid() && file != null
      modifies this`mode
      ensures View() == (if file.rest == 0 then old(View()).(mode := Spec.Description) else old(View()))
    {
      if file.rest == 0 {
        mode := Spec.Description;
      }
    }

    /** The file goes, and the session waits for a command. */
    method DropUpload(host: Host)
      requires Valid() && file != null
      modifies this, host
      ensures Valid() && Repr() <= old(Repr())
      ensures At(host) == Spec.DropUpload(old(At(host)))
    {
      host.m := Unlink(host.m, file.path);
      ClearFile(host);
      mode := Spec.Wait;
    }

    /** The descriptor that follows a finished package, and the payload behind it. */
    method ReadDescriptor(host: Host, r: Framing.Read, a: Answers)
      requires Valid() && file != null && file.packageRest < |r.chunk| && file.rest != 0
      modifies this, file, host
      ensures Valid() && Repr() <= old(Repr())
      ensures At(host) == Spec.AtDescriptor(old(At(host)), r, a)
    {
      var d := Framing.ParseDescriptor(Framing.Peek(r, file.packageRest));
      match d.signal {
        case Continue => StartPackage(host, r, d.packageSize, a);
        case Cancel => DropUpload(host);
        case _ => FinishUpload();
      }
    }

    /** A new package of `size` bytes: write what the read holds of it. */
    method StartPackage(host: Host, r: Framing.Read, size: Size, a: Answers)
      requires Valid() && file != null && file.packageRest < |r.chunk| && file.rest != 0
      modifies this, file, host
      ensures Valid() && Repr() <= old(Repr())
      ensures At(host) == Spec.NewPackage(old(At(host)), r, size, a)
    {
      var length := |r.chunk| - file.packageRest - Framing.DESCRIPTOR_SIZE;
      if length > 0 {
        length := Min(length, file.rest);
        var from := file.packageRest + Framing.DESCRIPTOR_SIZE;
        var written := WriteFile(host.m, fd, r.chunk[from..from + length], a.secondWrite);
        if written.None? {
          FailUpload(host);
          return;
        }
        host.m := written.value;
        file.rest := file.rest - length;
      }
      file.packageRest := ToSize(size - length);
      FinishUpload();
    }

    method FileDownload(host: Host, a: Answers)
      requires Valid() && file != null
      modifies this, file, host
      ensures Valid() && Repr() <= old(Repr())
      ensures At(host) == Spec.FileDownload(old(At(host)), a)
    {
      if file.packageRest == 0 {
        mode := Spec.Confirm;
        return;
      }
      var length := if file.packageRest < INBUFSIZE then file.packageRest
                    else if file.rest < INBUFSIZE then file.rest
                    else INBUFSIZE;
      var data := FileData(host.m, fd, length, a.short);
      if data == [] {
        if file.rest != 0 {
          ClearFile(host);
        }
        mode := Spec.Wait;
        return;
      }
      host.m := SkipFile(host.m, fd, |data|);
      Deliver(host, data, a.firstWrite);
    }

    method Deliver(host: Host, data: Bytes, sent: bool)
      requires Valid() && file != null
      modifies this, file, host
      ensures Valid() && Repr() <= old(Repr())
      ensures At(host) == Spec.Deliver(old(At(host)), data, sent)
    {
      if !sent {
        mode := Spec.Err;
        ClearFile(host);
        return;
      }
      host.m := Send(host.m, sd, data);
      file.rest := ToSize(file.rest - |data|);
      file.packageRest := ToSize(file.packageRest - |data|);
      if file.rest == 0 {
        ClearFile(host);
        mode := Spec.Wait;
        return;
      }
      if file.packageRest == 0 {
        mode := Spec.Confirm;
      }
    }

    method SendPrepare(host: Host, line: string, a: Answers) returns (code: int)
      requires Valid()
      modifies this, host
      ensures Valid() && fresh(Repr() - old(Repr()))
      ensures Spec.Prepared(At(host), code) == Spec.SendPrepare(old(At(host)), line, a)
    {
      match Commands.ParseDownload(line) {
        case NoOpeningBracket => ClearFile(host); return -4;
        case NoClosingBracket => ClearFile(host); return -5;
        case EmptyName => ClearFile(host); return -6;
        case Malformed => return -7;
        case DownloadRequest(name) =>
          if !(a.found < |host.m.records| && host.m.records[a.found].name == name) {
            file := null;
            return -1;
          }
          file := new FileRecord(Spec.FileOfRecord(host.m.records[a.found]), this);
          code := OpenRecorded(host, a);
      }
    }

    method OpenRecorded(host: Host, a: Answers) returns (code: int)
      requires Valid() && file != null
      modifies this, file, host
      ensures Valid() && Repr() <= old(Repr())
      ensures Spec.Prepared(At(host), code) == Spec.OpenRecorded(old(At(host)), a)
    {
      if a.openRefused || !host.m.atRoot || file.path !in host.m.files || !Usable(host.m, a.newHandle) {
        return -2;
      }
      host.m := host.m.(handles := host.m.handles[a.newHandle := OpenFile(file.path, 0)]);
      var length := ToSize(|host.m.files[file.path]|);
      if file.size != length {
        return -3;
      }
      file.rest := length;
      fd := a.newHandle;
      file.packageRest := PACKAGE_SIZE;
      return 0;
    }

    method ReceivePrepare(host: Host, line: string, a: Answers, h: Spec.Hash) returns (code: int)
      requires Valid()
      modifies this, host
      ensures Valid() && fresh(Repr() - old(Repr()))
      ensures Spec.Prepared(At(host), code) == Spec.ReceivePrepare(old(At(host)), line, a, h)
    {
      var request := Commands.ParseUpload(line);
      match request {
        case NoOpeningQuote => ClearFile(host); return -5;
        case NoClosingQuote => ClearFile(host); return -6;
        case NoName => ClearFile(host); return -7;
        case UploadRequest(name, size, perm) =>
          file := new FileRecord(Spec.NewFile(name, perm, a), this);
          code := AcceptUpload(host, size, a, h);
      }
    }

    method AcceptUpload(host: Host, size: Size, a: Answers, h: Spec.Hash) returns (code: int)
      requires Valid() && file != null
      modifies this, file, host
      ensures Valid() && Repr() <= old(Repr())
      ensures Spec.Prepared(At(host), code) == Spec.AcceptUpload(old(At(host)), size, a, h)
    {
      if |file.name| > a.nameMax {
        mode := Spec.Wait;
        ClearFile(host);
        return -1;
      }
      if size > a.space {
        ClearFile(host);
        return -2;
      }
      code := CreateFile(host, a, h);
      if code != 0 {
        ClearFile(host);
        return;
      }
      file.size, file.rest := size, size;
      fd := a.newHandle;
    }

    /** The probing loop: seed after seed until a file could be created that did not exist. */
    method CreateFile(host: Host, a: Answers, h: Spec.Hash) returns (code: int)
      requires Valid() && file != null
      modifies file, host
      ensures Valid()
      ensures var p := Spec.ProbeFrom(old(host.m), h, old(file.name), a, FILE_HASH_SEED);
              && host.m == p.m
              && code == (if p.Created? then 0 else p.code)
              && file.View() == (if p.Created? then old(file.View()).(path := PathOf(p.hash), hash := p.hash)
                                 else old(file.View()).(path := file.path, hash := file.hash))
    {
      var seed := FILE_HASH_SEED;
      while seed <= INT_MAX
        invariant file.View() == old(file.View()).(path := file.path, hash := file.hash)
        invariant Spec.ProbeFrom(host.m, h, file.name, a, seed)
                  == Spec.ProbeFrom(old(host.m), h, file.name, a, FILE_HASH_SEED)
        decreases INT_MAX - seed
      {
        file.hash := h(file.name, seed);
        file.path := PathOf(file.hash);
        if DirOf(file.hash) !in host.m.dirs && seed in a.mkdirRefused {
          host.m := host.m.(atRoot := false);
          return -4;
        }
        host.m := host.m.(dirs := host.m.dirs + {DirOf(file.hash)}, atRoot := true);
        if seed in a.createRefused || !Usable(host.m, a.newHandle) {
          return -3;
        }
        if file.path !in host.m.files {
          host.m := host.m.(files := host.m.files[file.path := []],
                            handles := host.m.handles[a.newHandle := OpenFile(file.path, 0)]);
          return 0;
        }
        seed := seed + 1;
      }
      return -3;
    }

    /** What the collector still has to do, with a line in hand or without one. */
    static ghost function Pending(description: Option<string>, line: Option<string>, text: string): Spec.Collected
      requires line.None? ==> description.Some?
    {
      if line.Some? then Spec.Collect(description, line.value, text)
      else if text == "" then Spec.Collected(description.value, "", false)
      else Spec.Collect(description, LineBuffer.LineOf(text), LineBuffer.Rest(text))
    }

    method UploadDescription(first: string) returns (ended: bool)
      requires Valid() && file != null
      modifies file, line`used, line.cells
      ensures Valid()
      ensures var c := Spec.Collect(old(file.description), first, old(line.Text()));
              && ended == c.ended
              && line.Text() == c.text
              && file.View() == old(file.View()).(description := Some(c.description))
    {
      var text := Some(first);
      while true
        invariant Valid()
        invariant text.None? ==> file.description.Some?
        invariant Pending(file.description, text, line.Text())
                  == Spec.Collect(old(file.description), first, old(line.Text()))
        invariant file.View() == old(file.View()).(description := file.description)
        decreases line.used, text.Some?
      {
        if text.Some? && file.description.None? {
          assert "" + text.value == text.value;
          file.description := text;
        } else {
          if text.None? {
            if line.used == 0 {
              return false;
            }
            text := line.Extract();
          }
          file.description := Some(file.description.value + text.value);
        }
        if Spec.EndsDescription(text.value) {
          file.description := Some(Spec.CutEnd(file.description.value));
          return true;
        }
        text := None;
      }
    }

    // ----- session.c -----

    /** `session_do_read`; without a line the connection has to be closed. */
    method DoRead(a: Answers) returns (text: Option<string>)
      requires Valid()
      modifies this, line`used, line.cells
      ensures Valid() && file == old(file)
      ensures (View(), text) == Spec.ReadLine(old(View()), a)
    {
      text := line.Fill(a.text);
      if text.None? {
        mode := Spec.Err;
      }
    }

    // ----- client.c -----

    method DownloadConfirm(host: Host, line: string)
      requires Valid() && file != null
      modifies this, file, host
      ensures Valid() && Repr() <= old(Repr())
      ensures At(host) == Spec.DownloadConfirm(old(At(host)), line)
    {
      match Commands.ParseConfirmation(line) {
        case Continue(credit) =>
          mode := Spec.Download;
          file.packageRest := credit;
        case Cancel =>
          ClearFile(host);
          mode := Spec.Wait;
        case Noise =>
      }
    }

    method ClientCommand(host: Host, line: string, a: Answers, h: Spec.Hash)
      requires Valid()
      modifies this, host
      ensures Valid() && fresh(Repr() - old(Repr()))
      ensures At(host) == Spec.ClientCommand(old(At(host)), line, a, h)
    {
      match Commands.ParseCommand(line, a.staleWords) {
        case Upload => StartUpload(host, line, a, h);
        case Download => StartDownload(host, line, a);
        case Exit => mode, leaving := Spec.Err, true;
        case _ =>
      }
    }

    method StartUpload(host: Host, line: string, a: Answers, h: Spec.Hash)
      requires Valid()
      modifies this, host
      ensures Valid() && fresh(Repr() - old(Repr()))
      ensures var p := Spec.ReceivePrepare(old(At(host)), line, a, h);
              At(host) == if p.code == 0 then Spec.WithMode(p.t, Spec.Upload) else p.t
    {
      var code := ReceivePrepare(host, line, a, h);
      if code == 0 {
        mode := Spec.Upload;
      }
    }

    method StartDownload(host: Host, line: string, a: Answers)
      requires Valid()
      modifies this, host
      ensures Valid() && fresh(Repr() - old(Repr()))
      ensures var p := Spec.SendPrepare(old(At(host)), line, a);
              At(host) == if p.code == 0 then Spec.WithMode(p.t, Spec.Download) else p.t
    {
      var code := SendPrepare(host, line, a);
      if code == 0 {
        mode := Spec.Download;
      }
    }

    // ----- user.c -----

    method CreateUser(line: string, a: Answers)
      requires Valid() && Spec.Registers(line)
      modifies this
      ensures Valid() && file == old(file)
      ensures View() == (if Spec.RegisteredName(line).Some? && a.userId > 0
                         then old(View()).(mode := Spec.Wait, uname := Spec.RegisteredName(line), uid := a.userId)
                         else old(View()))
    {
      var name := Spec.RegisteredName(line);
      if name.Some? && a.userId > 0 {
        mode, uname, uid := Spec.Wait, name, a.userId;
      }
    }

    method ProcessUserName(line: string, a: Answers)
      requires Valid()
      modifies this
      ensures Valid() && file == old(file)
      ensures View() == Spec.UserName(old(View()), line, a)
    {
      if line == "exit" {
        mode, leaving := Spec.Err, true;
      } else if Spec.Registers(line) {
        CreateUser(line, a);
      } else if line == "anonymous" {
        mode, uname := Spec.Wait, Some("anonymous");
      } else {
        mode, uname := Spec.LoginPassword, Some(line);
      }
    }

    method Login(a: Answers)
      requires Valid()
      modifies this
      ensures Valid() && file == old(file)
      ensures View() == Spec.Login(old(View()), a)
    {
      if a.userId != 0 {
        mode, uid := Spec.Wait, a.userId;
      } else {
        mode := Spec.LoginUser;
      }
    }

    /** The save step that follows a finished description. */
    method SaveFile(host: Host, a: Answers)
      requires Valid() && file != null
      modifies this, host
      ensures Valid() && Repr() <= old(Repr())
      ensures At(host) == Spec.Save(old(At(host)), a)
    {
      match a.saved {
        case Inserted(_) =>
          host.m := host.m.(records := host.m.records
            + [Record(file.name, file.size, file.hash,
                      if file.description.Some? then file.description.value else "", file.permissions, uid)]);
        case NotInserted(result) =>
          if result == 0 {
            host.m := Unlink(host.m, file.path);
          }
      }
      ClearFile(host);
      mode := Spec.Wait;
    }

    /** `perform_session_action`; a transfer step comes without a line. */
    method Perform(host: Host, line: Option<string>, a: Answers, h: Spec.Hash)
      requires Valid() && Spec.FileHeld(View())
      requires line.None? ==> mode == Spec.Upload || mode == Spec.Download
      modifies Repr(), host
      ensures Valid() && fresh(Repr() - old(Repr()))
      ensures At(host) == if line.None? then Spec.TransferTurn(old(At(host)), a)
                          else Spec.LineTurn(old(At(host)), line.value, a, h)
    {
      match mode {
        case LoginUser => ProcessUserName(line.value, a);
        case LoginPassword => Login(a);
        case Wait => ClientCommand(host, line.value, a, h);
        case Download => FileDownload(host, a);
        case Upload => FileUpload(host, a);
        case Description =>
          var ended := UploadDescription(line.value);
          if ended {
            SaveFile(host, a);
          }
        case Confirm => DownloadConfirm(host, line.value);
        case Err =>
      }
    }

    /** The part of `close_session` that concerns the machine; the caller clears slot `i`. */
    method Close(host: Host, i: int)
      requires Valid()
      modifies this, host
      ensures Valid() && Repr() <= old(Repr())
      ensures host.m == Spec.CloseSession(old(At(host)), i)
    {
      ClearFile(host);
      host.m := CloseHandle(host.m, i);
      host.m := host.m.(wire := map k | k in host.m.wire && k != i :: host.m.wire[k]);
    }

    /** Read a line and act on it; false means that the connection is closed. */
    method RequestTurn(host: Host, i: int, a: Answers, h: Spec.Hash) returns (open: bool)
      requires Valid() && Spec.FileHeld(View()) && mode != Spec.Upload && mode != Spec.Download
      modifies Repr(), host
      ensures Valid() && fresh(Repr() - old(Repr()))
      ensures var after := Spec.RequestTurn(old(At(host)), i, a, h);
              host.m == after.m && open == after.s.Some? && (open ==> Some(View()) == after.s)
    {
      var text := DoRead(a);
      if text.None? {
        Close(host, i);
        return false;
      }
      Perform(host, text, a, h);
      open := Conclude(host, i);
    }

    /** Close the connection of a session in the error state. */
    method Conclude(host: Host, i: int) returns (open: bool)
      requires Valid()
      modifies this, host
      ensures Valid() && Repr() <= old(Repr())
      ensures var after := Spec.Conclude(old(At(host)), i);
              host.m == after.m && open == after.s.Some? && (open ==> Some(View()) == after.s)
    {
      open := mode != Spec.Err;
      if !open {
        Close(host, i);
      }
    }

    /** This session's share of one iteration of the main loop. */
    method SlotTurn(host: Host, i: int, readable: set<int>, a: Answers, h: Spec.Hash) returns (open: bool)
      requires Valid() && Spec.FileHeld(View())
      modifies Repr(), host
      ensures Valid() && fresh(Repr() - old(Repr()))
      ensures var after := Spec.SlotTurn(old(At(host)), i, readable, a, h);
              host.m == after.m && open == after.s.Some? && (open ==> Some(View()) == after.s)
    {
      open := true;
      if mode == Spec.Upload || mode == Spec.Download {
        if fd > -1 && fd in readable {
          Perform(host, None, a, h);
        }
      } else if i in readable {
        open := RequestTurn(host, i, a, h);
      }
    }
  }
}
