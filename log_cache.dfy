/**
 * lib/log.js: one logger per router name, kept in a module-level cache and
 * created on first use with the name "<package>(router: <name>)".
 */
module LogCache {
  import opened JsValue

  /** The package name the logger names start with. */
  const PackageName: string := "fh-rest-express-router"

  /** The name given to the logger of the router called `routerName`. */
  function LoggerName(routerName: string): string {
    PackageName + "(router: " + routerName + ")"
  }

  /** Different router names give different logger names. */
  lemma {:induction false} LoggerNameInjective(a: string, b: string)
    requires LoggerName(a) == LoggerName(b)
    ensures a == b
  {
    var p := PackageName + "(router: ";
    assert LoggerName(a) == p + a + ")" && LoggerName(b) == p + b + ")";
    assert |a| == |b|;
    forall i | 0 <= i < |a| ensures a[i] == b[i] {
      assert a[i] == LoggerName(a)[|p| + i];
      assert b[i] == LoggerName(b)[|p| + i];
    }
  }

  /** A logger made by the logging library; only its name is modelled. */
  class Logger {
    const name: string

    constructor (name: string)
      ensures this.name == name
    {
      this.name := name;
    }
  }

  /** The `loggers` object, keyed by `String(opts.name)`. */
  class LoggerCache {
    var loggers: map<string, Logger>

    /** Every cached logger carries the name derived from its key. */
    predicate Valid()
      reads this
    {
      forall k :: k in loggers ==> loggers[k].name == LoggerName(k)
    }

    constructor ()
      ensures loggers == map[] && Valid()
    {
      loggers := map[];
    }

    /**
     * `getFhRestLogger(opts)`: the cached logger for the name, or a new one
     * stored under it. Entries are never removed or replaced.
     */
    method GetLogger(routerName: Value) returns (l: Logger)
      requires Valid()
      modifies this
      ensures Valid()
      ensures var k := ToPropertyKey(routerName);
              k in loggers && l == loggers[k] && l.name == LoggerName(k)
      ensures var k := ToPropertyKey(routerName);
              if k in old(loggers) then loggers == old(loggers) && l == old(loggers)[k]
              else fresh(l) && loggers == old(loggers)[k := l]
    {
      var k := ToPropertyKey(routerName);
      if k in loggers {
        l := loggers[k];
      } else {
        l := new Logger(LoggerName(k));
        loggers := loggers[k := l];
      }
    }

    /** lib/log.test.js:35-47: asking twice for one name gives the same instance. */
    method GetLoggerTwice(routerName: Value) returns (first: Logger, second: Logger)
      requires Valid()
      modifies this
      ensures Valid()
      ensures first == second && first.name == LoggerName(ToPropertyKey(routerName))
      ensures old(loggers).Keys <= loggers.Keys
      ensures forall k :: k in old(loggers) ==> loggers[k] == old(loggers)[k]
    {
      first := GetLogger(routerName);
      second := GetLogger(routerName);
    }
  }
}
