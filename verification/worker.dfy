/**
 * The CI worker `setup` acts on: every foreign call it receives is recorded in
 * order, and the filesystem calls change its filesystem. How each call turns
 * out is decided by the worker's `Host` description.
 */
module Worker {
  import opened Wrappers
  import opened Plan

  class Runner {
    const host: Host
    /** Every foreign call received so far, oldest first. */
    var calls: seq<Event>
    var fs: FileSystem

    constructor (host: Host, fs: FileSystem)
      ensures this.host == host && this.fs == fs && calls == []
    {
      this.host := host;
      this.fs := fs;
      calls := [];
    }

    /**
     * `fs.mkdtempSync(parent/prefix)`: creates `parent/<prefix><suffix>`, where the
     * system picks `suffix` so that nothing of that name exists yet. Throws with
     * nothing created when `parent` is neither a directory nor a link to one, or when the host makes the
     * creation fail (EACCES, EROFS, ENOSPC).
     */
    method MkdTemp(parent: Path, prefix: string, suffix: string) returns (r: Result<Path, Error>)
      requires NamesNothing(fs, parent + [prefix + suffix])
      modifies this
      ensures calls == old(calls) + [Event.MkdTemp(parent, prefix, suffix)]
      ensures r == if !ResolvesToDir(old(fs), parent) then Failure(NoTempDir(parent))
                   else if Fails(host.failing, Event.MkdTemp(parent, prefix, suffix))
                   then Failure(CommandFailed(Event.MkdTemp(parent, prefix, suffix)))
                   else Success(parent + [prefix + suffix])
      ensures fs == if r.Success? then old(fs)[parent + [prefix + suffix] := Directory] else old(fs)
    {
      calls := calls + [Event.MkdTemp(parent, prefix, suffix)];
      if !ResolvesToDir(fs, parent) {
        r := Failure(NoTempDir(parent));
      } else if Fails(host.failing, Event.MkdTemp(parent, prefix, suffix)) {
        r := Failure(CommandFailed(Event.MkdTemp(parent, prefix, suffix)));
      } else {
        fs := fs[parent + [prefix + suffix] := Directory];
        r := Success(parent + [prefix + suffix]);
      }
    }

    /** `io.which(tool, true)`: the tool's path, or a throw when it is not on PATH. */
    method Which(tool: string) returns (r: Result<Path, Error>)
      modifies this`calls
      ensures calls == old(calls) + [Event.Which(tool)]
      ensures r == if tool in host.onPath then Success(host.onPath[tool]) else Failure(NotFound(tool))
    {
      calls := calls + [Event.Which(tool)];
      r := if tool in host.onPath then Success(host.onPath[tool]) else Failure(NotFound(tool));
    }

    /** `exec.exec(program, args)`: throws when the command exits non-zero. */
    method Exec(program: Path, args: seq<Arg>) returns (r: Result<(), Error>)
      modifies this`calls
      ensures calls == old(calls) + [Event.Exec(program, args)]
      ensures r == if Fails(host.failing, Event.Exec(program, args))
                   then Failure(CommandFailed(Event.Exec(program, args))) else Success(())
    {
      calls := calls + [Event.Exec(program, args)];
      r := if Fails(host.failing, Event.Exec(program, args))
           then Failure(CommandFailed(Event.Exec(program, args))) else Success(());
    }

    /**
     * `fs.mkdirSync(path.join(parent, name))` for a new name in an existing
     * directory: creates it, or throws (EACCES, EPERM) with nothing created.
     */
    method MkDir(parent: Path, name: string) returns (r: Result<(), Error>)
      requires parent + [name] !in fs && IsDir(fs, parent)
      modifies this
      ensures calls == old(calls) + [Event.MkDir(parent + [name])]
      ensures r == if Fails(host.failing, Event.MkDir(parent + [name]))
                   then Failure(CommandFailed(Event.MkDir(parent + [name]))) else Success(())
      ensures fs == if r.Failure? then old(fs) else old(fs)[parent + [name] := Directory]
    {
      calls := calls + [Event.MkDir(parent + [name])];
      if Fails(host.failing, Event.MkDir(parent + [name])) {
        r := Failure(CommandFailed(Event.MkDir(parent + [name])));
      } else {
        fs := fs[parent + [name] := Directory];
        r := Success(());
      }
    }

    /**
     * `fs.symlinkSync(target, path.join(parent, name))` for a new name in an
     * existing directory: creates the link, or throws (EPERM without the symlink
     * privilege on Windows, EACCES) with nothing created.
     */
    method Symlink(target: Path, parent: Path, name: string) returns (r: Result<(), Error>)
      requires parent + [name] !in fs && IsDir(fs, parent)
      modifies this
      ensures calls == old(calls) + [Event.Symlink(target, parent + [name])]
      ensures r == if Fails(host.failing, Event.Symlink(target, parent + [name]))
                   then Failure(CommandFailed(Event.Symlink(target, parent + [name]))) else Success(())
      ensures fs == if r.Failure? then old(fs) else old(fs)[parent + [name] := Link(target)]
    {
      calls := calls + [Event.Symlink(target, parent + [name])];
      if Fails(host.failing, Event.Symlink(target, parent + [name])) {
        r := Failure(CommandFailed(Event.Symlink(target, parent + [name])));
      } else {
        fs := fs[parent + [name] := Link(target)];
        r := Success(());
      }
    }

    /** `core.addPath(dir)`: throws when the host makes the PATH file unwritable. */
    method AddPath(dir: Path) returns (r: Result<(), Error>)
      modifies this`calls
      ensures calls == old(calls) + [Event.AddPath(dir)]
      ensures r == if Fails(host.failing, Event.AddPath(dir)) then Failure(CommandFailed(Event.AddPath(dir))) else Success(())
    {
      calls := calls + [Event.AddPath(dir)];
      r := if Fails(host.failing, Event.AddPath(dir)) then Failure(CommandFailed(Event.AddPath(dir))) else Success(());
    }
  }
}
