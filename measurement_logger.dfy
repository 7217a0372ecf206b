/**
 * The background measurement logger of the current weather station: the
 * logging thread's start/stop/restart state machine and the loop the
 * thread runs.  Threads are modelled by presence and identity, and a join
 * is taken to complete.
 */
module PeripheralMeasurementLogger {
  import opened Outcomes
  import PeripheralWeatherStation

  const LOGGING_INTERVAL_SEC: int := 30
  const LOG_WEATHER_IN_BACKGROUND: bool := true

  /**
   * The attributes a `MeasurementLogger` object defines: its methods and
   * the instance attributes `__init__` and the setters assign.
   */
  const LOGGER_ATTRIBUTES: set<string> := {
    "__init__", "logger", "is_logging", "apply_logging_config", "set_log_in_background",
    "get_logging_interval", "set_logging_interval", "start_logging", "stop_logging",
    "_weather_station", "_log_in_background", "_logging_thread", "_logging_stop_event",
    "_logging_interval"}

  /** Looking up a method on the logger object: AttributeError for a name it lacks. */
  function LookupOnLogger(name: string): (o: Outcome)
    ensures o.Fail? <==> name !in LOGGER_ATTRIBUTES
    ensures o.Fail? ==> o.error == AttributeError(name)
  {
    if name in LOGGER_ATTRIBUTES then Pass else Fail(AttributeError(name))
  }

  /** The loop body calls `self.measure_and_log()`, a method of the station, not of the logger. */
  lemma MeasureAndLogNotOnLogger()
    ensures LookupOnLogger("measure_and_log") == Fail(AttributeError("measure_and_log"))
  {
  }

  /** One pass of the logging loop: what was stored, then how long the thread waited. */
  datatype Iteration = Iteration(logged: PeripheralWeatherStation.LogOutcome, waited: int)

  class MeasurementLogger {
    const station: PeripheralWeatherStation.WeatherStation
    var logInBackground: bool
    var loggingInterval: int
    var thread: Option<nat>
    var threadsStarted: nat
    var stopEventSet: bool
    /** Logging threads started and not yet joined. */
    ghost var running: set<nat>

    ghost predicate Valid()
      reads this
    {
      && running == (if thread.Some? then {thread.value} else {})
      && (thread.Some? ==> thread.value < threadsStarted)
    }

    /** `__init__`: no thread, then the configuration is applied, which starts logging every 30 s. */
    constructor (station: PeripheralWeatherStation.WeatherStation)
      ensures Valid() && this.station == station
      ensures IsLogging() && thread == Some(0) && threadsStarted == 1 && !stopEventSet
      ensures logInBackground == LOG_WEATHER_IN_BACKGROUND && loggingInterval == LOGGING_INTERVAL_SEC
    {
      this.station := station;
      logInBackground := false;
      loggingInterval := 0;
      thread := None;
      threadsStarted := 0;
      stopEventSet := false;
      running := {};
      new;
      ApplyLoggingConfig();
    }

    /** `is_logging`: a logging thread exists. */
    predicate IsLogging()
      reads this
    {
      thread.Some?
    }

    /**
     * `apply_logging_config`: the interval is set before logging is
     * enabled, so setting it restarts nothing when logging was off and
     * exactly one thread is started.
     */
    method ApplyLoggingConfig()
      requires Valid()
      modifies this
      ensures Valid() && IsLogging() && !stopEventSet
      ensures logInBackground == LOG_WEATHER_IN_BACKGROUND && loggingInterval == LOGGING_INTERVAL_SEC
      ensures threadsStarted == old(threadsStarted) + (if old(IsLogging()) then 2 else 1)
      ensures thread == Some(threadsStarted - 1)
    {
      SetLoggingInterval(LOGGING_INTERVAL_SEC);
      SetLogInBackground(LOG_WEATHER_IN_BACKGROUND);
    }

    /** `set_log_in_background`: afterwards logging runs exactly when asked to. */
    method SetLogInBackground(enable: bool)
      requires Valid()
      modifies this
      ensures Valid() && logInBackground == enable && IsLogging() == enable
      ensures loggingInterval == old(loggingInterval)
      ensures enable ==> thread == Some(old(threadsStarted)) && threadsStarted == old(threadsStarted) + 1 && !stopEventSet
      ensures !enable ==> threadsStarted == old(threadsStarted)
    {
      logInBackground := enable;
      if enable {
        StartLogging();
      } else {
        StopLogging();
      }
    }

    /** `set_logging_interval`: stores the interval and restarts only a running logger. */
    method SetLoggingInterval(seconds: int)
      requires Valid()
      modifies this
      ensures Valid() && loggingInterval == seconds && logInBackground == old(logInBackground)
      ensures IsLogging() == old(IsLogging())
      ensures old(IsLogging()) ==> thread == Some(old(threadsStarted)) && threadsStarted == old(threadsStarted) + 1 && !stopEventSet
      ensures !old(IsLogging()) ==> thread == old(thread) && threadsStarted == old(threadsStarted) && stopEventSet == old(stopEventSet)
    {
      loggingInterval := seconds;
      if IsLogging() {
        StartLogging();
      }
    }

    /** `start_logging`: a running logger is stopped first, so there is at most one. */
    method StartLogging()
      requires Valid()
      modifies this
      ensures Valid() && IsLogging() && !stopEventSet
      ensures thread == Some(old(threadsStarted)) && threadsStarted == old(threadsStarted) + 1
      ensures running == {old(threadsStarted)}
      ensures logInBackground == old(logInBackground) && loggingInterval == old(loggingInterval)
    {
      if IsLogging() {
        StopLogging();
      }
      thread := Some(threadsStarted);
      running := running + {threadsStarted};
      threadsStarted := threadsStarted + 1;
      stopEventSet := false;
    }

    /** `stop_logging`: nothing changes when not logging; otherwise the thread is signalled and joined. */
    method StopLogging()
      requires Valid()
      modifies this
      ensures Valid() && !IsLogging() && running == {}
      ensures old(!IsLogging()) ==> unchanged(this)
      ensures old(IsLogging()) ==> stopEventSet && threadsStarted == old(threadsStarted)
      ensures logInBackground == old(logInBackground) && loggingInterval == old(loggingInterval)
    {
      if IsLogging() {
        stopEventSet := true;
        running := running - {thread.value};
        thread := None;
      }
    }

    /**
     * The thread body as written: the first statement of the loop looks up
     * `measure_and_log` on the logger and raises, before anything is
     * stored or waited for.
     */
    method LoggerAsWritten(oracles: seq<PeripheralWeatherStation.Oracle>, logResults: seq<bool>)
      returns (o: Outcome, trace: seq<Iteration>)
      requires |oracles| == |logResults|
      ensures o == Fail(AttributeError("measure_and_log")) && trace == []
    {
      trace := [];
      o := LookupOnLogger("measure_and_log");
      assert o.Fail?;
    }

    /**
     * The thread body calling the station's `measure_and_log`: iteration
     * `i` measures with `oracles[i]`, stores with result `logResults[i]`,
     * then waits the interval; the stop event ends the wait of the last
     * one.  A new interval restarts the thread (`SetLoggingInterval`), so
     * within one run the wait is the same `loggingInterval` every time.  Every iteration, the first included,
     * logs before it waits.
     */
    method Logger(oracles: seq<PeripheralWeatherStation.Oracle>, logResults: seq<bool>)
      returns (trace: seq<Iteration>)
      requires |oracles| == |logResults|
      ensures |trace| == |oracles|
      ensures forall i :: 0 <= i < |trace| ==>
                trace[i] == Iteration(station.MeasureAndLog(oracles[i], logResults[i]), loggingInterval)
    {
      trace := [];
      var i := 0;
      while i < |oracles|
        invariant 0 <= i <= |oracles| && |trace| == i
        invariant forall j :: 0 <= j < i ==>
                    trace[j] == Iteration(station.MeasureAndLog(oracles[j], logResults[j]), loggingInterval)
      {
        var logged := station.MeasureAndLog(oracles[i], logResults[i]);
        var interval := loggingInterval;
        trace := trace + [Iteration(logged, interval)];
        i := i + 1;
      }
    }
  }

  /** Stopping twice leaves the logger stopped; starting twice leaves it running (with one thread). */
  method StopTwiceStartTwice(l: MeasurementLogger)
    requires l.Valid()
    modifies l
    ensures l.Valid() && l.IsLogging() && l.running == {l.threadsStarted - 1}
  {
    l.StopLogging();
    l.StopLogging();
    assert !l.IsLogging();
    l.StartLogging();
    l.StartLogging();
  }
}
