/** What the image service's cache is for: an image once served is served again without being queued. */
module RenderServiceCaching {
  import opened Basics
  import opened RenderService

  predicate Cached(s: State, key: string, png: Bytes) {
    key in s.cache && s.cache[key] == png
  }

  /** The step neither forgets this key nor stores another image under it. */
  predicate Spares(s: State, a: Action, key: string)
    requires Enabled(s, a)
  {
    && !(a.Forget? && a.key == key)
    && !(a.Handle? && CacheKey(s.versions, s.calls[a.c].record) == key && s.calls[a.c].phase.outcome.Success?)
  }

  ghost predicate SparedBy(s: State, acts: seq<Action>, key: string)
    requires ValidRun(s, acts)
    decreases |acts|
  {
    acts == [] || (Spares(s, acts[0], key) && SparedBy(Next(s, acts[0]), acts[1..], key))
  }

  /** A call is served by finding its image in the cache or by handling the queue's answer. */
  predicate ServedBy(s: State, a: Action, c: nat, png: Bytes) {
    && Enabled(s, a) && (a.Look? || a.Handle?) && a.c == c
    && Next(s, a).calls[c].phase == Served(png)
  }

  lemma ServedIsCached(s: State, a: Action, c: nat, png: Bytes)
    requires ServedBy(s, a, c, png)
    ensures Cached(Next(s, a), CacheKey(s.versions, s.calls[c].record), png)
  {
  }

  /** If call `c` has this key, it has yet to look, or was served `png`. */
  predicate Hot(s: State, c: nat, key: string, png: Bytes) {
    c < |s.calls| && CacheKey(s.versions, s.calls[c].record) == key ==>
      s.calls[c].phase.Looking? || s.calls[c].phase == Served(png)
  }

  lemma StepStaysHot(s: State, a: Action, c: nat, key: string, png: Bytes)
    requires Enabled(s, a) && Spares(s, a, key) && Cached(s, key, png) && Hot(s, c, key, png)
    ensures Cached(Next(s, a), key, png) && Hot(Next(s, a), c, key, png)
    ensures Next(s, a).versions == s.versions
  {
  }

  lemma {:induction false} RunStaysHot(s: State, acts: seq<Action>, c: nat, key: string, png: Bytes)
    requires ValidRun(s, acts) && SparedBy(s, acts, key) && Cached(s, key, png) && Hot(s, c, key, png)
    ensures var end := Exec(s, acts);
            Cached(end, key, png) && Hot(end, c, key, png) && end.versions == s.versions
    decreases |acts|
  {
    if acts != [] {
      StepStaysHot(s, acts[0], c, key, png);
      RunStaysHot(Next(s, acts[0]), acts[1..], c, key, png);
    }
  }

  /**
   Once a call has been served `png`, and until its key is forgotten or stored anew, every call of that
   key that looks after it is served `png`: it never misses, and its lookup leaves the queue alone.
  */
  lemma ServedOnceServedAgain(s: State, a: Action, first: nat, png: Bytes, acts: seq<Action>, c: nat)
    requires ServedBy(s, a, first, png) && ValidRun(Next(s, a), acts)
    requires SparedBy(Next(s, a), acts, CacheKey(s.versions, s.calls[first].record))
    requires c < |Next(s, a).calls| ==> Next(s, a).calls[c].phase.Looking?
    requires var end := Exec(Next(s, a), acts);
             c < |end.calls| && CacheKey(s.versions, end.calls[c].record) == CacheKey(s.versions, s.calls[first].record)
    ensures var end := Exec(Next(s, a), acts);
            if end.calls[c].phase.Looking? then
              Enabled(end, Look(c)) && Next(end, Look(c)).q == end.q
              && Next(end, Look(c)).calls[c].phase == Served(png)
            else end.calls[c].phase == Served(png)
  {
    ServedIsCached(s, a, first, png);
    RunStaysHot(Next(s, a), acts, c, CacheKey(s.versions, s.calls[first].record), png);
  }

  /** A call misses only when nothing is stored under its key. */
  lemma MissedMeansNotCached(s: State, c: nat)
    requires Enabled(s, Look(c))
    ensures Next(s, Look(c)).calls[c].phase.Missed? <==> CacheKey(s.versions, s.calls[c].record) !in s.cache
  {
  }
}
