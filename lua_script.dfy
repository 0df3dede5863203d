/** A Lua script in the scripting sandbox: where its code comes from (a named
    file or an in-memory stream with a chunk name), how the value the script
    returns is read as success or failure, the load/unload bracketing of the
    logger context and of the hosting environment, and the `setMusic` call a
    script makes to register background music. The Lua virtual machine is not
    modelled: what running a chunk yields is an input. */
module Lua {
  import opened Wrappers

  /** The Lua values a script can return, as far as `load` tells them apart:
      nil, a boolean, an integer (a Java int) and anything else. */
  datatype LuaValue = Nil | Boolean(b: bool) | Int(i: int) | Other(kind: string)

  /** What executing a chunk does: it returns a value, or raises a Lua error
      that propagates out of `load`. */
  datatype ChunkRun = Returned(value: LuaValue) | Raised(message: string)

  /** Reading and executing a stream: either the chunk ran, or reading the
      stream threw an IOException. */
  datatype StreamRun = Ran(run: ChunkRun) | ReadFailed

  /** An opened input stream; `None` stands for Java's null. */
  datatype InputStream = InputStream(handle: nat)

  /** Messages written to the script loggers. */
  datatype LogEntry = ScriptReturned(value: LuaValue) | StreamError | UnknownMusicKey(key: string)

  /** Notifications sent to the hosting environment. */
  datatype HostEvent = ScriptLoaded(chunk: string) | ScriptUnloaded(chunk: string)

  /** A background-music source added to the current zone. */
  datatype MusicSource = MusicSource(filename: string, radius: int, volume: int, x: int, y: int)

  /** How `load` ends: it returns a success flag, or an error escapes it. */
  datatype LoadOutcome = Finished(success: bool) | Threw(message: string)

  /** The state outside the script that loading touches: the Lua logger's
      current file name, the environment's notifications, the log, and the
      music sources of the zone. */
  class Host {
    var loggerFilename: Option<string>
    var events: seq<HostEvent>
    var log: seq<LogEntry>
    var sources: seq<MusicSource>

    constructor ()
      ensures loggerFilename == None && events == [] && log == [] && sources == []
    {
      loggerFilename, events, log, sources := None, [], [], [];
    }
  }

  /** The success test on a script's return value: an integer or nil succeeds
      exactly when its integer value is 0 (nil reads as 0), a boolean exactly
      when it is true, and any other value succeeds. */
  function Succeeds(result: LuaValue): (ok: bool)
    ensures result.Nil? ==> ok
    ensures result.Int? ==> (ok <==> result.i == 0)
    ensures result.Boolean? ==> (ok <==> result.b)
    ensures result.Other? ==> ok
    ensures !ok <==> result == Boolean(false) || (result.Int? && result.i != 0)
  {
    match result
    case Nil => true
    case Int(i) => i == 0
    case Boolean(b) => b
    case Other(_) => true
  }

  /** What the stream path hands back to `load`: an IOException becomes the
      integer 1, anything else is the chunk's own outcome. */
  function StreamResult(run: StreamRun): (r: ChunkRun)
    ensures run.ReadFailed? ==> r == Returned(Int(1)) && !Succeeds(r.value)
    ensures run.Ran? ==> r == run.run
  {
    match run
    case ReadFailed => Returned(Int(1))
    case Ran(c) => c
  }

  class LuaScript {
    /** The file name, or the chunk name of a stream. */
    const filename: string
    const istream: Option<InputStream>

    /** A script read from a file. */
    constructor FromFile(filename: string)
      ensures this.filename == filename && istream == None
      ensures !IsResource() && GetChunkName() == filename
    {
      this.filename := filename;
      istream := None;
    }

    /** A script read from a stream, named by `chunkname`. */
    constructor FromStream(istream: Option<InputStream>, chunkname: string)
      ensures filename == chunkname && this.istream == istream
      ensures IsResource() <==> istream.Some?
      ensures GetChunkName() == chunkname
    {
      filename := chunkname;
      this.istream := istream;
    }

    /** True exactly when the script has a (non-null) stream to read. */
    predicate IsResource() {
      istream.Some?
    }

    function GetChunkName(): string {
      filename
    }

    /** The outcome of running the script's code: the stream path when the
        script has a stream, otherwise the file path. */
    function Execution(fileRun: ChunkRun, streamRun: StreamRun): ChunkRun {
      if istream.Some? then StreamResult(streamRun) else fileRun
    }

    /** The log lines the stream path writes before `load` interprets the
        result. */
    function ReadLog(streamRun: StreamRun): seq<LogEntry> {
      if istream.Some? && streamRun.ReadFailed? then [StreamError] else []
    }

    /** `onLoad`: the logger names this script, and the environment is told
        that it is entering scope. */
    method OnLoad(host: Host)
      modifies host
      ensures host.loggerFilename == Some(filename)
      ensures host.events == old(host.events) + [ScriptLoaded(filename)]
      ensures host.log == old(host.log) && host.sources == old(host.sources)
    {
      host.loggerFilename := Some(filename);
      host.events := host.events + [ScriptLoaded(filename)];
    }

    /** `onUnload`: the environment is told that the script leaves scope and
        the logger's file name is cleared. */
    method OnUnload(host: Host)
      modifies host
      ensures host.loggerFilename == None
      ensures host.events == old(host.events) + [ScriptUnloaded(filename)]
      ensures host.log == old(host.log) && host.sources == old(host.sources)
    {
      host.events := host.events + [ScriptUnloaded(filename)];
      host.loggerFilename := None;
    }

    /** `loadStream`: run the stream; an IOException is logged and read as the
        result 1. */
    method LoadStream(host: Host, streamRun: StreamRun) returns (result: ChunkRun)
      modifies host
      ensures result == StreamResult(streamRun)
      ensures host.log == old(host.log) + (if streamRun.ReadFailed? then [StreamError] else [])
      ensures host.loggerFilename == old(host.loggerFilename)
      ensures host.events == old(host.events) && host.sources == old(host.sources)
    {
      match streamRun
      case ReadFailed =>
        host.log := host.log + [StreamError];
        result := Returned(Int(1));
      case Ran(run) =>
        result := run;
    }

    /** `load()`: `onLoad`, run the code, read the result, warn on failure,
        `onUnload`. There is no finally block: when the script raises an
        error, `load` ends with it and `onUnload` is never reached, so the
        logger still names the script. */
    method Load(host: Host, fileRun: ChunkRun, streamRun: StreamRun) returns (outcome: LoadOutcome)
      modifies host
      ensures var run := Execution(fileRun, streamRun);
              && (outcome.Threw? <==> run.Raised?)
              && (run.Returned? ==>
                    && outcome == Finished(Succeeds(run.value))
                    && host.loggerFilename == None
                    && host.events == old(host.events) + [ScriptLoaded(filename), ScriptUnloaded(filename)]
                    && host.log == old(host.log) + ReadLog(streamRun)
                                   + (if Succeeds(run.value) then [] else [ScriptReturned(run.value)]))
              && (run.Raised? ==>
                    && outcome == Threw(run.message)
                    && host.loggerFilename == Some(filename)
                    && host.events == old(host.events) + [ScriptLoaded(filename)]
                    && host.log == old(host.log))
      ensures host.sources == old(host.sources)
    {
      OnLoad(host);
      var run: ChunkRun;
      if istream.Some? {
        run := LoadStream(host, streamRun);
      } else {
        run := fileRun;
      }
      match run
      case Raised(message) =>
        return Threw(message);
      case Returned(result) =>
        var success := Succeeds(result);
        if !success {
          host.log := host.log + [ScriptReturned(result)];
        }
        OnUnload(host);
        return Finished(success);
    }

    /** `load(player, args)`: the player and the arguments are ignored and the
        call is exactly `load()`. */
    method LoadFor<P>(host: Host, player: P, args: seq<string>, fileRun: ChunkRun, streamRun: StreamRun)
      returns (outcome: LoadOutcome)
      modifies host
      ensures var run := Execution(fileRun, streamRun);
              && (outcome.Threw? <==> run.Raised?)
              && (run.Returned? ==>
                    && outcome == Finished(Succeeds(run.value))
                    && host.loggerFilename == None
                    && host.events == old(host.events) + [ScriptLoaded(filename), ScriptUnloaded(filename)]
                    && host.log == old(host.log) + ReadLog(streamRun)
                                   + (if Succeeds(run.value) then [] else [ScriptReturned(run.value)]))
              && (run.Raised? ==>
                    && outcome == Threw(run.message)
                    && host.loggerFilename == Some(filename)
                    && host.events == old(host.events) + [ScriptLoaded(filename)]
                    && host.log == old(host.log))
      ensures host.sources == old(host.sources)
    {
      outcome := Load(host, fileRun, streamRun);
    }

    /** `setMusic(filename, args)`: start from the defaults, let each table
        entry with a recognised key override one setting and warn about each
        unrecognised key, then add one music source to the zone. Every value
        is cast to a Lua integer before anything else, so a value that is not
        an integer throws a ClassCastException: no source is added, and the
        warnings written so far stay in the log. */
    method SetMusic(host: Host, filename: string, args: seq<(string, LuaValue)>) returns (added: bool)
      modifies host
      ensures var m := MusicArgs(args);
              && (added <==> !m.castFailed)
              && host.log == old(host.log) + m.warnings
              && host.sources == old(host.sources) +
                   (if added then [MusicSource(filename, m.options.radius, m.options.volume, m.options.x, m.options.y)]
                    else [])
      ensures host.loggerFilename == old(host.loggerFilename) && host.events == old(host.events)
    {
      var volume, x, y, radius := 100, 1, 1, 10000;
      var i := 0;
      while i < |args|
        invariant 0 <= i <= |args|
        invariant |host.log| >= |old(host.log)| && host.log[..|old(host.log)|] == old(host.log)
        invariant MusicArgs(args[..i]) == MusicParse(MusicOptions(volume, x, y, radius), host.log[|old(host.log)|..], false)
        invariant host.sources == old(host.sources)
        invariant host.loggerFilename == old(host.loggerFilename) && host.events == old(host.events)
      {
        var (key, value) := args[i];
        assert args[..i + 1] == args[..i] + [args[i]];
        if !value.Int? {
          // ClassCastException from the cast to LuaInteger
          assert MusicArgs(args).castFailed by { CastFailureIsFinal(args, i + 1); }
          assert MusicArgs(args).warnings == host.log[|old(host.log)|..] by { CastFailureIsFinal(args, i + 1); }
          assert host.log == old(host.log) + host.log[|old(host.log)|..];
          return false;
        }
        var v := value.i;
        if key == "volume" {
          volume := v;
        } else if key == "x" {
          x := v;
        } else if key == "y" {
          y := v;
        } else if key == "radius" {
          radius := v;
        } else {
          host.log := host.log + [UnknownMusicKey(key)];
        }
        i := i + 1;
      }
      assert args[..|args|] == args;
      assert host.log == old(host.log) + host.log[|old(host.log)|..];
      host.sources := host.sources + [MusicSource(filename, radius, volume, x, y)];
      return true;
    }

    /** `setMusic(filename)`: the same as an empty option table, so the one
        source added has every default. */
    method SetMusicDefault(host: Host, filename: string)
      modifies host
      ensures host.sources == old(host.sources) + [MusicSource(filename, 10000, 100, 1, 1)]
      ensures host.log == old(host.log)
      ensures host.loggerFilename == old(host.loggerFilename) && host.events == old(host.events)
    {
      var added := SetMusic(host, filename, []);
    }
  }

  /** The four settings of `setMusic`. */
  datatype MusicOptions = MusicOptions(volume: int, x: int, y: int, radius: int)

  const DefaultMusic := MusicOptions(100, 1, 1, 10000)

  /** The state of the option loop: the settings so far, the warnings written,
      and whether a cast has failed (after which nothing else happens). */
  datatype MusicParse = MusicParse(options: MusicOptions, warnings: seq<LogEntry>, castFailed: bool)

  predicate RecognisedKey(key: string) {
    key == "volume" || key == "x" || key == "y" || key == "radius"
  }

  /** One table entry with an integer value. */
  function ApplyMusicArg(o: MusicOptions, key: string, v: int): MusicOptions {
    if key == "volume" then o.(volume := v)
    else if key == "x" then o.(x := v)
    else if key == "y" then o.(y := v)
    else if key == "radius" then o.(radius := v)
    else o
  }

  /** The option loop over the table entries, in iteration order. */
  function MusicArgs(args: seq<(string, LuaValue)>): MusicParse {
    if args == [] then MusicParse(DefaultMusic, [], false)
    else
      var m := MusicArgs(args[..|args| - 1]);
      var (key, value) := args[|args| - 1];
      if m.castFailed then m
      else if !value.Int? then m.(castFailed := true)
      else if RecognisedKey(key) then m.(options := ApplyMusicArg(m.options, key, value.i))
      else m.(warnings := m.warnings + [UnknownMusicKey(key)])
  }

  /** Once a cast has failed, later entries change nothing. */
  lemma {:induction false} CastFailureIsFinal(args: seq<(string, LuaValue)>, n: nat)
    requires n <= |args| && MusicArgs(args[..n]).castFailed
    ensures MusicArgs(args) == MusicArgs(args[..n])
    decreases |args| - n
  {
    if n < |args| {
      assert args[..n + 1][..n] == args[..n];
      CastFailureIsFinal(args, n + 1);
    } else {
      assert args[..n] == args;
    }
  }

  /** With no table entries every setting keeps its default. */
  lemma EmptyTableGivesDefaults()
    ensures MusicArgs([]) == MusicParse(MusicOptions(100, 1, 1, 10000), [], false)
  {
  }

  /** An entry with an unrecognised key and an integer value only adds a
      warning naming the key. */
  lemma UnknownKeyOnlyWarns(args: seq<(string, LuaValue)>, key: string, v: int)
    requires !RecognisedKey(key) && !MusicArgs(args).castFailed
    ensures MusicArgs(args + [(key, Int(v))]).options == MusicArgs(args).options
    ensures MusicArgs(args + [(key, Int(v))]).warnings == MusicArgs(args).warnings + [UnknownMusicKey(key)]
  {
    assert (args + [(key, Int(v))])[..|args|] == args;
  }

  /** The setting a recognised key names ends up with the value of the last
      entry for that key; when the key never occurs it keeps its default. */
  lemma {:induction false} LastEntryWins(args: seq<(string, LuaValue)>, key: string)
    requires RecognisedKey(key)
    requires forall i :: 0 <= i < |args| ==> args[i].1.Int?
    ensures !MusicArgs(args).castFailed
    ensures Setting(MusicArgs(args).options, key) ==
              if exists i :: 0 <= i < |args| && args[i].0 == key
              then args[LastIndexOf(args, key)].1.i
              else Setting(DefaultMusic, key)
  {
    if args != [] {
      var prefix := args[..|args| - 1];
      LastEntryWins(prefix, key);
      var last := args[|args| - 1];
      if last.0 == key {
        assert LastIndexOf(args, key) == |args| - 1;
      } else {
        assert (exists i :: 0 <= i < |args| && args[i].0 == key) <==> (exists i :: 0 <= i < |prefix| && prefix[i].0 == key) by {
          if exists i :: 0 <= i < |args| && args[i].0 == key {
            var i :| 0 <= i < |args| && args[i].0 == key;
            assert prefix[i] == args[i];
          }
        }
        if exists i :: 0 <= i < |args| && args[i].0 == key {
          assert LastIndexOf(args, key) == LastIndexOf(prefix, key);
        }
      }
    }
  }

  /** The value a recognised key sets. */
  function Setting(o: MusicOptions, key: string): int
    requires RecognisedKey(key)
  {
    if key == "volume" then o.volume else if key == "x" then o.x else if key == "y" then o.y else o.radius
  }

  /** The index of the last entry with the given key. */
  function LastIndexOf(args: seq<(string, LuaValue)>, key: string): (i: nat)
    requires exists i :: 0 <= i < |args| && args[i].0 == key
    ensures i < |args| && args[i].0 == key
    ensures forall j :: i < j < |args| ==> args[j].0 != key
  {
    if args[|args| - 1].0 == key then |args| - 1
    else
      var prefix := args[..|args| - 1];
      assert exists i :: 0 <= i < |prefix| && prefix[i].0 == key by {
        var i :| 0 <= i < |args| && args[i].0 == key;
        assert i < |args| - 1 && prefix[i] == args[i];
      }
      LastIndexOf(prefix, key)
  }
}
