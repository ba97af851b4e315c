/** What lies outside the server: storage, descriptors, sockets and the file table of the database. */
module Environment {
  import opened Prelude
  import opened Naming

  /** What an open descriptor refers to. */
  datatype Handle = Listener | Socket | Foreign | OpenFile(path: string, pos: nat)

  /** One row of the database's file table. */
  datatype Record = Record(name: string, size: Size, hash: Int32, description: string, permissions: int, owner: Int32)

  /** `atRoot` is false while the process has been left inside the storage folder,
      from where the relative path of a stored file leads nowhere. */
  datatype Machine = Machine(files: map<string, Bytes>, dirs: set<string>, atRoot: bool,
                             handles: map<nat, Handle>, wire: map<nat, Bytes>, records: seq<Record>)

  /** How the database answers an insertion: a row with a positive id, or no row and some result. */
  datatype SaveAnswer = Inserted(id: Positive) | NotInserted(result: int)

  /** Every answer the environment gives during one turn of one session. */
  datatype Answers = Answers(
    data: Bytes,              // bytes an upload read finds in the socket
    beyond: Bytes,            // what the read buffer holds behind them
    text: string,             // text a command read finds in the socket; empty at end of stream or on error
    firstWrite: bool,         // whether the first and the second write of the turn succeed
    secondWrite: bool,
    short: nat,               // upper limit on what a file read returns
    newHandle: int,           // descriptor number proposed by the kernel
    openRefused: bool,        // opening an existing file is refused
    mkdirRefused: set<int>,   // seeds at which a directory cannot be made
    createRefused: set<int>,  // seeds at which a file cannot be created for another reason than existing
    nameMax: nat,
    space: nat,
    found: nat,               // the record a lookup picks
    saved: SaveAnswer,
    userId: Int32,            // result of a login or of a registration
    staleWords: (string, string),
    stalePerm: int,
    staleUid: Int32)          // the user number that a new session happens to hold

  /** `open` and `accept` succeed only with an unused number below the descriptor limit. */
  predicate Usable(m: Machine, n: int) {
    0 <= n < MAX_CONNECTIONS && n !in m.handles
  }

  function CloseHandle(m: Machine, n: int): Machine {
    m.(handles := map k | k in m.handles && k != n :: m.handles[k])
  }

  /** `unlink` of a stored path; from inside the storage folder it misses. */
  function Unlink(m: Machine, path: string): Machine {
    if m.atRoot then m.(files := m.files - {path}) else m
  }

  function Overwrite(content: Bytes, pos: nat, data: Bytes): Bytes {
    Take(content, pos) + data + (if pos + |data| <= |content| then content[pos + |data|..] else [])
  }

  /** `write` to a file: complete, or refused, as when the file would outgrow `off_t`. */
  function WriteFile(m: Machine, n: int, data: Bytes, ok: bool): Option<Machine> {
    if ok && n >= 0 && n in m.handles && m.handles[n].OpenFile? && m.handles[n].pos + |data| < OFF_SPAN then
      var h := m.handles[n];
      Some(m.(handles := m.handles[n := h.(pos := h.pos + |data|)],
              files := if h.path in m.files then m.files[h.path := Overwrite(m.files[h.path], h.pos, data)]
                       else m.files))
    else None
  }

  /** The bytes a `read` of at most `len` bytes returns. */
  function FileData(m: Machine, n: int, len: nat, short: nat): Bytes {
    if n >= 0 && n in m.handles && m.handles[n].OpenFile? && m.handles[n].path in m.files
       && m.handles[n].pos <= |m.files[m.handles[n].path]| then
      Take(Take(m.files[m.handles[n].path][m.handles[n].pos..], len), short)
    else []
  }

  function SkipFile(m: Machine, n: int, len: nat): Machine {
    if n >= 0 && n in m.handles && m.handles[n].OpenFile? then
      m.(handles := m.handles[n := m.handles[n].(pos := m.handles[n].pos + len)])
    else m
  }

  /** Bytes written to a client's socket during a download. */
  function Send(m: Machine, sd: int, data: Bytes): Machine {
    if sd >= 0 && sd in m.wire then m.(wire := m.wire[sd := m.wire[sd] + data]) else m
  }

  /** The outside world of a running server; a mutable cell that all sessions share. */
  class Host {
    var m: Machine

    constructor (m: Machine)
      ensures this.m == m
    {
      this.m := m;
    }
  }

  ghost predicate IsSaved(m: Machine, path: string) {
    exists r :: r in m.records && PathOf(r.hash) == path
  }
}
