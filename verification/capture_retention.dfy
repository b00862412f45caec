/** Retention defaults of the capture store: filled in at most once, so that an explicit zero survives. */
module CaptureRetention {
  const DEFAULT_AGE: int := 168 * 3600 * 1_000_000_000
  const DEFAULT_BYTES: int := 5_000_000_000
  const DEFAULT_INTERVAL: int := 1_000_000_000

  /** The retention settings: what was written in the config, and what they are. Durations are in nanoseconds. */
  datatype Settings = Settings(
    agePresent: bool, bytesPresent: bool, intervalPresent: bool, resolved: bool, maxAge: int,
    maxBytes: int, interval: int)

  function Filled(s: Settings): Settings {
    s.(maxAge := if !s.resolved && !s.agePresent && s.maxAge == 0 then DEFAULT_AGE else s.maxAge,
       maxBytes := if !s.resolved && !s.bytesPresent && s.maxBytes == 0 then DEFAULT_BYTES else s.maxBytes,
       interval := if !s.resolved && !s.intervalPresent && s.interval == 0 then DEFAULT_INTERVAL else s.interval)
  }

  predicate Usable(s: Settings) {
    s.maxAge >= 0 && s.maxBytes >= 0 && s.interval > 0 && !(s.maxAge == 0 && s.maxBytes == 0)
  }

  class CaptureStoreConfig {
    var agePresent: bool
    var bytesPresent: bool
    var intervalPresent: bool
    var resolved: bool
    var maxAge: int
    var maxBytes: int
    var interval: int

    constructor (s: Settings)
      ensures Now() == s
    {
      agePresent, bytesPresent, intervalPresent, resolved :=
        s.agePresent, s.bytesPresent, s.intervalPresent, s.resolved;
      maxAge, maxBytes, interval := s.maxAge, s.maxBytes, s.interval;
    }

    function Now(): Settings
      reads this
    {
      Settings(agePresent, bytesPresent, intervalPresent, resolved, maxAge, maxBytes, interval)
    }

    /** `deadlineOk` says that the recording deadline can be read. */
    method ApplyDefaults(deadlineOk: bool) returns (ok: bool)
      modifies this
      ensures ok == (deadlineOk && Usable(Filled(old(Now()))))
      ensures Now() == if !deadlineOk then old(Now()) else Filled(old(Now())).(resolved := old(resolved) || ok)
    {
      if !deadlineOk {
        return false;
      }
      if !resolved && !agePresent && maxAge == 0 {
        maxAge := DEFAULT_AGE;
      }
      if !resolved && !bytesPresent && maxBytes == 0 {
        maxBytes := DEFAULT_BYTES;
      }
      if !resolved && !intervalPresent && interval == 0 {
        interval := DEFAULT_INTERVAL;
      }
      if maxAge < 0 || maxBytes < 0 || interval <= 0 || (maxAge == 0 && maxBytes == 0) {
        return false;
      }
      resolved := true;
      return true;
    }
  }

  /** The loader applies the defaults twice. The second time changes nothing and gives the same verdict. */
  method ApplyTwice(store: CaptureStoreConfig, deadlineOk: bool)
    returns (first: bool, second: bool, ghost between: Settings)
    modifies store
    ensures second == first && store.Now() == between
    ensures between == if !deadlineOk then old(store.Now())
      else Filled(old(store.Now())).(resolved := old(store.resolved) || first)
  {
    first := store.ApplyDefaults(deadlineOk);
    between := store.Now();
    second := store.ApplyDefaults(deadlineOk);
  }

  /** A zero that the config spells out survives; a zero it leaves out becomes the default, once. */
  lemma ExplicitZeroSurvives(s: Settings)
    ensures Filled(s).maxAge == 0 <==> s.maxAge == 0 && (s.agePresent || s.resolved)
    ensures Filled(s).maxBytes == 0 <==> s.maxBytes == 0 && (s.bytesPresent || s.resolved)
    ensures Filled(s).interval == 0 <==> s.interval == 0 && (s.intervalPresent || s.resolved)
    ensures Filled(Filled(s)) == Filled(s)
  {
  }

  /** What is filled in: seven days, five gigabytes and one second, in nanoseconds and bytes. All else stays. */
  lemma DefaultsSpelled(s: Settings)
    ensures Filled(s).maxAge == s.maxAge || (s.maxAge == 0 && Filled(s).maxAge == 604_800_000_000_000)
    ensures Filled(s).maxBytes == s.maxBytes || (s.maxBytes == 0 && Filled(s).maxBytes == 5_000_000_000)
    ensures Filled(s).interval == s.interval || (s.interval == 0 && Filled(s).interval == 1_000_000_000)
    ensures Filled(s) == s.(maxAge := Filled(s).maxAge, maxBytes := Filled(s).maxBytes, interval := Filled(s).interval)
  {
  }
}
