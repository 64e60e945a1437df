/** The state every snake_case middleware embeds (defs.MWBase) and the two
    generic options built on it. */
module Defs {
  import opened Wrappers
  import opened Http

  /** A *slog.Logger: the process default logger or some other one. */
  datatype Logger = DefaultLogger | Custom(id: nat)

  /** slog.Level values. */
  const LevelDebug := -4
  const LevelInfo := 0
  const LevelWarn := 4
  const LevelError := 8

  const ErrNotInitialized := "middleware not initialized"
  const ErrNilLogger := "cannot configure with nil logger"
  const ErrNilNext := "next handler must not be nil"
  const ErrNilHandler := "cannot configure nil handler"

  /** MWBase: logger, log level and next handler. The Go zero value has no
      logger, level Info and no next handler. A nil *MWBase is `null`. */
  class MWBase {
    var log: Option<Logger>
    var logLevel: int
    var next: Option<HandlerId>

    constructor ()
      ensures log == None && logLevel == LevelInfo && next == None
    {
      log := None;
      logLevel := LevelInfo;
      next := None;
    }

    /** Log: the stored logger, or the default one for a nil receiver or when
        none was set. */
    static function Log(mw: MWBase?): (l: Logger)
      reads mw
      ensures mw != null && mw.log.Some? ==> l == mw.log.value
      ensures mw == null || mw.log.None? ==> l == DefaultLogger
    {
      if mw != null && mw.log.Some? then mw.log.value else DefaultLogger
    }

    /** SetLog: fails on a nil receiver or a nil logger, leaving everything
        as it was; otherwise only the logger changes. */
    static method SetLog(mw: MWBase?, l: Option<Logger>) returns (err: Option<string>)
      modifies mw
      ensures mw == null ==> err == Some(ErrNotInitialized)
      ensures mw != null && l.None? ==> err == Some(ErrNilLogger) && unchanged(mw)
      ensures mw != null && l.Some? ==> err == None && mw.log == l && Log(mw) == l.value
      ensures mw != null ==> mw.logLevel == old(mw.logLevel) && mw.next == old(mw.next)
    {
      if mw == null {
        return Some(ErrNotInitialized);
      }
      if l.None? {
        return Some(ErrNilLogger);
      }
      mw.log := l;
      return None;
    }

    /** LogLevel: the stored level, Info for a nil receiver. */
    static function LogLevel(mw: MWBase?): (level: int)
      reads mw
      ensures mw == null ==> level == LevelInfo
      ensures mw != null ==> level == mw.logLevel
    {
      if mw != null then mw.logLevel else LevelInfo
    }

    /** SetLogLevel: fails on a nil receiver; otherwise only the level changes. */
    static method SetLogLevel(mw: MWBase?, level: int) returns (err: Option<string>)
      modifies mw
      ensures mw == null ==> err == Some(ErrNotInitialized)
      ensures mw != null ==> err == None && mw.logLevel == level && LogLevel(mw) == level
      ensures mw != null ==> mw.log == old(mw.log) && mw.next == old(mw.next)
    {
      if mw != null {
        mw.logLevel := level;
        return None;
      }
      return Some(ErrNotInitialized);
    }

    /** Next: the stored next handler, nil for a nil receiver. */
    static function Next(mw: MWBase?): (n: Option<HandlerId>)
      reads mw
      ensures mw == null ==> n == None
      ensures mw != null ==> n == mw.next
    {
      if mw != null then mw.next else None
    }

    /** SetNext: fails on a nil receiver or a nil handler, leaving everything
        as it was; otherwise only the next handler changes. */
    static method SetNext(mw: MWBase?, n: Option<HandlerId>) returns (err: Option<string>)
      modifies mw
      ensures mw == null ==> err == Some(ErrNotInitialized)
      ensures mw != null && n.None? ==> err == Some(ErrNilNext) && unchanged(mw)
      ensures mw != null && n.Some? ==> err == None && mw.next == n && Next(mw) == n
      ensures mw != null ==> mw.log == old(mw.log) && mw.logLevel == old(mw.logLevel)
    {
      if mw == null {
        return Some(ErrNotInitialized);
      }
      if n.None? {
        return Some(ErrNilNext);
      }
      mw.next := n;
      return None;
    }
  }

  /** WithLogger applied to a handler whose MWBase is base (null for a nil
      handler): a nil handler is refused before SetLog is consulted. */
  method WithLogger(base: MWBase?, l: Option<Logger>) returns (err: Option<string>)
    modifies base
    ensures base == null ==> err == Some(ErrNilHandler)
    ensures base != null && l.None? ==> err == Some(ErrNilLogger) && unchanged(base)
    ensures base != null && l.Some? ==> err == None && base.log == l
    ensures base != null ==> base.logLevel == old(base.logLevel) && base.next == old(base.next)
  {
    if base == null {
      return Some(ErrNilHandler);
    }
    err := MWBase.SetLog(base, l);
  }

  /** WithLogLevel applied to a handler whose MWBase is base (null for a nil
      handler): a nil handler is refused, otherwise the level is stored. */
  method WithLogLevel(base: MWBase?, level: int) returns (err: Option<string>)
    modifies base
    ensures base == null ==> err == Some(ErrNilHandler)
    ensures base != null ==> err == None && base.logLevel == level
    ensures base != null ==> base.log == old(base.log) && base.next == old(base.next)
  {
    if base == null {
      return Some(ErrNilHandler);
    }
    err := MWBase.SetLogLevel(base, level);
  }
}
