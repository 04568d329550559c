/**
  The tracker base of the issue layer: MultitonMetaClass, which gives every tracker
  class its own cache from positional-argument tuple to instance, and the default
  capabilities of BaseTracker.
 */
module Trackers {
  import opened Wrappers
  import Issues

  /** The positional constructor arguments of a call, as the cache key tuple(args). */
  type Key = seq<Option<string>>

  /** The i-th positional argument, or the parameter default None when it is absent. */
  function Arg(key: Key, i: nat): Option<string> {
    if i < |key| then key[i] else None
  }

  /** Why a call of a tracker class raised before anything was cached. */
  datatype CallError = TooManyArguments  // TypeError: __init__ takes at most two arguments

  /** A BaseTracker instance: its class and the two settings its __init__ stores. */
  class Tracker {
    const kind: TrackerClass
    const template: Option<string>
    const titleFormat: Option<string>

    /** BaseTracker.__init__(template=None, title=None). */
    constructor (kind: TrackerClass, template: Option<string>, titleFormat: Option<string>)
      ensures this.kind == kind
      ensures this.template == template && this.titleFormat == titleFormat
    {
      this.kind := kind;
      this.template := template;
      this.titleFormat := titleFormat;
    }

    /** logged_in: the base tracker needs no login. */
    function LoggedIn(): (r: bool)
      ensures r
    {
      true
    }

    /** find_issue: the base tracker knows no issues, so nothing is ever a duplicate. */
    function FindIssue(issue: Issues.Issue): (r: Option<Issues.Issue>)
      ensures r == None
    {
      None
    }

    /** report_issue: a no-op returning None. */
    function ReportIssue(fields: map<string, Issues.Value>): (r: Option<Issues.Issue>)
      ensures r == None
    {
      None
    }

    /** issue_url: the base tracker has no URLs. */
    function IssueUrl(issue: Issues.Issue): (r: string)
      ensures r == ""
    {
      ""
    }
  }

  /** A class created by MultitonMetaClass, with its own instance cache. */
  class TrackerClass {
    const name: string
    var instances: map<Key, Tracker>

    /** Every cached instance belongs to this class and was built from its key. */
    ghost predicate Valid()
      reads this
    {
      forall k :: k in instances ==>
        && |k| <= 2
        && instances[k].kind == this
        && instances[k].template == Arg(k, 0)
        && instances[k].titleFormat == Arg(k, 1)
    }

    /** MultitonMetaClass.__init__: each new class, subclasses too, starts empty. */
    constructor (name: string)
      ensures this.name == name && instances == map[]
      ensures Valid()
    {
      this.name := name;
      instances := map[];
    }

    /**
      MultitonMetaClass.__call__: the cached instance for an equal argument tuple,
      else a new instance, which is cached only when its construction succeeds.
     */
    method Call(args: Key) returns (r: Result<Tracker, CallError>)
      requires Valid()
      modifies this
      ensures Valid()
      ensures args in old(instances) ==> r == Ok(old(instances)[args]) && instances == old(instances)
      ensures args !in old(instances) && |args| <= 2 ==>
        && r.Ok? && fresh(r.value)
        && r.value.kind == this && r.value.template == Arg(args, 0) && r.value.titleFormat == Arg(args, 1)
        && instances == old(instances)[args := r.value]
      ensures args !in old(instances) && |args| > 2 ==>
        r == Err(TooManyArguments) && instances == old(instances)
    {
      if args in instances {
        return Ok(instances[args]);
      }
      if |args| > 2 {
        return Err(TooManyArguments);
      }
      var t := new Tracker(this, Arg(args, 0), Arg(args, 1));
      instances := instances[args := t];
      r := Ok(t);
    }
  }

  /**
    Equal argument tuples give the identical instance, and a subclass keeps its own
    cache, so the same tuple gives it a different instance.
   */
  method SameKeySameInstance(key: Key)
    requires key == [Some("issue.md"), Some("{id}: {summary}")]
  {
    var base := new TrackerClass("BaseTracker");
    var sub := new TrackerClass("SubTracker");

    var a := base.Call(key);
    var b := base.Call(key);
    assert a.Ok? && b == a;
    assert base.instances == map[key := a.value];

    var c := sub.Call(key);
    assert c.Ok? && c.value != a.value && c.value.kind == sub;
    assert base.instances == map[key := a.value];
  }

  /**
    () and (None, None) are different keys, so they give two instances even though
    both configure a tracker the same way. A third argument raises and caches nothing.
   */
  method DefaultsAreSeparateKeys()
  {
    var base := new TrackerClass("BaseTracker");
    var d := base.Call([]);
    var e := base.Call([None, None]);
    assert d.Ok? && e.Ok? && d.value != e.value;
    assert d.value.template == e.value.template && d.value.titleFormat == e.value.titleFormat;

    var f := base.Call([None, None, None]);
    assert f == Err(TooManyArguments) && base.instances.Keys == {[], [None, None]};
  }
}
