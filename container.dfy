/**
 * The request-scoped service container, reduced to the services the bass
 * integration asks it for.
 */
module Containers {
  import opened Js
  import opened Profiler
  import opened Collector

  class Container {
    /** `has('profiler.stopwatch') && get('profiler.stopwatch').request(request)`:
        the stopwatch section bound to the request this container is scoped to. */
    const stopwatch: Option<StopwatchSection>
    /** `get('bass.profiler.collector')` */
    const collector: BassDataCollector
    /** `get('config').get('bass')` */
    const bassConfig: Value
    /** `get('config').get('framework')` */
    const frameworkConfig: Value
    /** `has('profiler')` */
    const hasProfiler: bool
    /** `get('profiler').isEnabled()`, when the profiler exists. */
    const profilerEnabled: bool
    /** The `bass` service, which `set('bass', ...)` replaces. */
    var bass: Value

    constructor(stopwatch: Option<StopwatchSection>, collector: BassDataCollector, bassConfig: Value,
                frameworkConfig: Value, hasProfiler: bool, profilerEnabled: bool, bass: Value)
      ensures this.stopwatch == stopwatch && this.collector == collector
      ensures this.bassConfig == bassConfig && this.frameworkConfig == frameworkConfig
      ensures this.hasProfiler == hasProfiler && this.profilerEnabled == profilerEnabled
      ensures this.bass == bass
    {
      this.stopwatch := stopwatch;
      this.collector := collector;
      this.bassConfig := bassConfig;
      this.frameworkConfig := frameworkConfig;
      this.hasProfiler := hasProfiler;
      this.profilerEnabled := profilerEnabled;
      this.bass := bass;
    }
  }
}
