/** The backend's logging helpers (backend/logger.py): a bounded in-memory
    queue of log lines and a memo table of configured loggers. */
module Logger {
  import opened Json

  /** `deque(maxlen=500)`. */
  const MAX_QUEUE: nat := 500

  /** Level numbers of Python's `logging`. */
  const NOTSET: int := 0
  const INFO: int := 20

  /** `f"[{ts}] {message}"`. */
  function LogLine(ts: string, message: string): (line: string)
    ensures |line| == |ts| + |message| + 3
    ensures line[0] == '[' && line[|ts| + 1..|ts| + 3] == "] "
    ensures line[1..|ts| + 1] == ts && line[|ts| + 3..] == message
  {
    "[" + ts + "] " + message
  }

  /** `deque.append` on a deque with `maxlen`: when full, the oldest entry
      falls off the front. */
  function Appended(q: seq<string>, line: string): (r: seq<string>)
    requires |q| <= MAX_QUEUE
    ensures |r| <= MAX_QUEUE && r != [] && r[|r| - 1] == line
    ensures |q| < MAX_QUEUE ==> r == q + [line]
    ensures |q| == MAX_QUEUE ==> |r| == MAX_QUEUE && r[..|r| - 1] == q[1..]
  {
    if |q| < MAX_QUEUE then q + [line] else q[1..] + [line]
  }

  /** The newest `min(|all|, 500)` entries of `all`, oldest first. */
  function Newest(all: seq<string>): (r: seq<string>)
    ensures |r| == (if |all| < MAX_QUEUE then |all| else MAX_QUEUE)
    ensures r == all[|all| - |r|..]
  {
    if |all| <= MAX_QUEUE then all else all[|all| - MAX_QUEUE..]
  }

  /** Keeping the newest entries of the newest entries plus more is keeping
      the newest entries of everything. */
  lemma NewestOfNewest(s: seq<string>, t: seq<string>)
    ensures Newest(Newest(s) + t) == Newest(s + t)
  {
    var u := s + t;
    if |s| > MAX_QUEUE {
      var d := |s| - MAX_QUEUE;
      assert Newest(s) + t == u[d..];
      assert u[d..][|u| - d - MAX_QUEUE..] == u[|u| - MAX_QUEUE..];
    } else {
      assert Newest(s) == s;
    }
  }

  /** After appending, the queue holds the newest entries of everything
      appended so far: a suffix of the old contents followed by the line. */
  lemma AppendedIsSuffix(q: seq<string>, line: string)
    requires |q| <= MAX_QUEUE
    ensures Appended(q, line) == Newest(q + [line])
  {
    if |q| == MAX_QUEUE {
      assert (q + [line])[1..] == q[1..] + [line];
    }
  }

  /** Appending lines one at a time keeps the newest `min(n, 500)` of them. */
  function AppendAll(q: seq<string>, lines: seq<string>): (r: seq<string>)
    requires |q| <= MAX_QUEUE
    ensures |r| <= MAX_QUEUE
    decreases |lines|
  {
    if lines == [] then q
    else AppendAll(Appended(q, lines[0]), lines[1..])
  }

  lemma {:induction false} AppendAllKeepsNewest(q: seq<string>, lines: seq<string>)
    requires |q| <= MAX_QUEUE
    ensures AppendAll(q, lines) == Newest(q + lines)
    decreases |lines|
  {
    if lines == [] {
      assert q + lines == q;
    } else {
      var x, rest := lines[0], lines[1..];
      AppendedIsSuffix(q, x);
      AppendAllKeepsNewest(Appended(q, x), rest);
      NewestOfNewest(q + [x], rest);
      MoveFirst(q, lines);
    }
  }

  lemma MoveFirst(q: seq<string>, lines: seq<string>)
    requires lines != []
    ensures q + lines == (q + [lines[0]]) + lines[1..]
  {
    assert lines == [lines[0]] + lines[1..];
  }

  /** The process-wide queue `_LOG_QUEUE`. */
  class LogQueue {
    var entries: seq<string>

    ghost predicate Valid()
      reads this
    {
      |entries| <= MAX_QUEUE
    }

    constructor ()
      ensures Valid() && entries == []
    {
      entries := [];
    }

    /** `stream_log(ws, message)` at clock reading `ts`: the line is queued
        and the message sent over the socket is returned. */
    method StreamLog(ts: string, message: string) returns (sent: Record)
      requires Valid()
      modifies this
      ensures Valid()
      ensures entries == Appended(old(entries), LogLine(ts, message))
      ensures sent == map["type" := Str("log"), "message" := Str(LogLine(ts, message))]
    {
      var msg := LogLine(ts, message);
      entries := Appended(entries, msg);
      sent := map["type" := Str("log"), "message" := Str(msg)];
    }

    /** `get_log_queue()`: a copy, oldest first. */
    method GetLogQueue() returns (lines: seq<string>)
      requires Valid()
      ensures lines == entries && |lines| <= MAX_QUEUE
    {
      lines := entries;
    }
  }

  /** What `setup_logger` touches of a `logging.Logger`. */
  datatype LoggerState = LoggerState(level: int, handlers: nat, propagate: bool)

  /** A logger `logging.getLogger` creates on first request. */
  const FRESH := LoggerState(NOTSET, 0, true)

  /** `logging.getLogger(name)`: the same logger for the same name. */
  function GetLogger(library: map<string, LoggerState>, name: string): (s: LoggerState)
    ensures name in library ==> s == library[name]
    ensures name !in library ==> s == FRESH
  {
    if name in library then library[name] else FRESH
  }

  /** The configuration `setup_logger` applies: level INFO, a stdout handler
      only if the logger has none, no propagation. */
  function Configure(s: LoggerState): (r: LoggerState)
    ensures r.level == INFO && !r.propagate
    ensures r.handlers == (if s.handlers == 0 then 1 else s.handlers)
  {
    LoggerState(INFO, if s.handlers == 0 then s.handlers + 1 else s.handlers, false)
  }

  /** Configuring twice is configuring once: handlers never stack. */
  lemma ConfigureIdempotent(s: LoggerState)
    ensures Configure(Configure(s)) == Configure(s)
    ensures Configure(s).handlers >= 1
  {
  }

  /** `logging`'s logger registry together with the memo `_LOGGERS`. The
      memo holds the very objects `getLogger` hands out, so it is a set of
      names whose loggers live in `library`. */
  class Loggers {
    var library: map<string, LoggerState>
    var memo: set<string>

    ghost predicate Valid()
      reads this
    {
      memo <= library.Keys &&
      forall n :: n in memo ==> library[n] == Configure(library[n])
    }

    constructor (library: map<string, LoggerState>)
      ensures Valid() && this.library == library && memo == {}
    {
      this.library := library;
      memo := {};
    }

    /** `setup_logger(name)`. */
    method SetupLogger(name: string) returns (logger: LoggerState)
      requires Valid()
      modifies this
      ensures Valid() && name in memo && logger == library[name]
      ensures name in old(memo) ==> library == old(library) && memo == old(memo)
      ensures name !in old(memo) ==>
        memo == old(memo) + {name} &&
        library == old(library)[name := Configure(GetLogger(old(library), name))]
    {
      if name in memo {
        return library[name];
      }
      var lg := GetLogger(library, name);
      lg := Configure(lg);
      library := library[name := lg];
      memo := memo + {name};
      return lg;
    }
  }

  /** Two set-ups of the same name leave one configured logger: the second
      changes nothing, and a logger that was configured has exactly the
      handlers it had before, or one if it had none. */
  method SetupTwice(loggers: Loggers, name: string) returns (first: LoggerState, second: LoggerState)
    requires loggers.Valid()
    modifies loggers
    ensures second == first
    ensures first.handlers >= 1
  {
    var before := loggers.library;
    first := loggers.SetupLogger(name);
    var between := loggers.library;
    second := loggers.SetupLogger(name);
    assert loggers.library == between;
    if name !in old(loggers.memo) {
      ConfigureIdempotent(GetLogger(before, name));
    } else {
      assert first == loggers.library[name];
    }
  }
}
