/**
 * The backend's service factory, apps/backend/src/services/ServiceFactory.ts:
 * a singleton holding a registry of models by name and a cache of the four
 * services, each built once from the models it needs.
 *
 * A registered model is a JSON value (all the registry looks at is whether
 * it is truthy); a built service records its kind and the models it was
 * constructed with, in constructor order.
 */
module ServiceFactory {
  import opened Js

  /** The four services the factory builds. */
  datatype Kind = UserKind | CourseKind | AttendanceKind | HomeworkKind

  /** The cache key of a service. */
  function Key(k: Kind): (s: string)
    ensures |s| > 0
  {
    match k
    case UserKind => "userService"
    case CourseKind => "courseService"
    case AttendanceKind => "attendanceService"
    case HomeworkKind => "homeworkService"
  }

  /** The models a service's constructor is given, in argument order. */
  function Needs(k: Kind): seq<string> {
    match k
    case UserKind => ["User", "UserRole", "Role"]
    case CourseKind => ["Course", "CourseTeacher", "Teacher", "Class", "TimeSlot", "SubCourse"]
    case AttendanceKind => ["AttendanceTask", "AttendanceRecord", "Class", "User", "Course"]
    case HomeworkKind => ["Homework", "HomeworkSubmission", "HomeworkFile", "Class", "User"]
  }

  /** A built service. */
  datatype Service = Service(kind: Kind, models: seq<Json>)

  /** A value, or the message of the error thrown instead. */
  datatype Got<T> = Got(value: T) | Thrown(message: string)

  /** The message `getModel` throws with. */
  function NotFoundMessage(name: string): string {
    "Model " + name + " not found. Please register it first."
  }

  /** A model is usable when it is registered and truthy. */
  predicate Usable(models: map<string, Json>, name: string) {
    name in models && Truthy(models[name])
  }

  /** `getModel(name)`. */
  function ModelOf(models: map<string, Json>, name: string): (r: Got<Json>)
    ensures r.Got? <==> Usable(models, name)
    ensures r.Got? ==> r.value == models[name]
    ensures r.Thrown? ==> r.message == NotFoundMessage(name)
  {
    if name in models && Truthy(models[name]) then Got(models[name]) else Thrown(NotFoundMessage(name))
  }

  /** The models `names` asks for, fetched left to right; the first unusable one throws. */
  function Resolve(models: map<string, Json>, names: seq<string>): (r: Got<seq<Json>>)
    ensures r.Got? <==> forall i :: 0 <= i < |names| ==> Usable(models, names[i])
    ensures r.Got? ==> |r.value| == |names| && forall i :: 0 <= i < |names| ==> r.value[i] == models[names[i]]
    ensures r.Thrown? ==> exists i :: 0 <= i < |names| && !Usable(models, names[i]) && r.message == NotFoundMessage(names[i]) &&
                                     (forall j :: 0 <= j < i ==> Usable(models, names[j]))
  {
    if names == [] then Got([])
    else
      var front := Resolve(models, names[..|names| - 1]);
      var last := ModelOf(models, names[|names| - 1]);
      if front.Thrown? then
        assert forall i :: 0 <= i < |names| - 1 ==> names[..|names| - 1][i] == names[i];
        front
      else if last.Thrown? then
        assert forall j :: 0 <= j < |names| - 1 ==> names[..|names| - 1][j] == names[j];
        Thrown(last.message)
      else Got(front.value + [last.value])
  }

  /** Once a prefix throws, the longer list throws the same error. */
  lemma {:induction false} ResolveStops(models: map<string, Json>, names: seq<string>, n: nat)
    requires n <= |names| && Resolve(models, names[..n]).Thrown?
    decreases |names| - n
    ensures Resolve(models, names) == Resolve(models, names[..n])
  {
    if n < |names| {
      assert names[..n + 1][..n] == names[..n];
      ResolveStops(models, names, n + 1);
    } else {
      assert names[..n] == names;
    }
  }

  /** What `getXService()` returns: the cached service, else one built from the models it needs. */
  function Obtained(services: map<string, Service>, models: map<string, Json>, k: Kind): (r: Got<Service>)
    ensures Key(k) in services ==> r == Got(services[Key(k)])
    ensures Key(k) !in services ==>
      (r.Got? <==> Resolve(models, Needs(k)).Got?) && (r.Got? ==> r.value == Service(k, Resolve(models, Needs(k)).value))
  {
    if Key(k) in services then Got(services[Key(k)])
    else
      var ms := Resolve(models, Needs(k));
      if ms.Got? then Got(Service(k, ms.value)) else Thrown(ms.message)
  }

  /** The cache after `getXService()`: the built service is added; a missing model adds nothing. */
  function CacheAfter(services: map<string, Service>, models: map<string, Json>, k: Kind): (r: map<string, Service>)
    ensures Obtained(services, models, k).Thrown? ==> r == services
    ensures Obtained(services, models, k).Got? ==> r == services[Key(k) := Obtained(services, models, k).value]
  {
    var o := Obtained(services, models, k);
    if o.Got? then services[Key(k) := o.value] else services
  }

  /** A service is built at most once: afterwards the cached instance is returned, whatever models are registered then. */
  lemma BuiltOnce(services: map<string, Service>, models: map<string, Json>, later: map<string, Json>, k: Kind)
    requires Obtained(services, models, k).Got?
    ensures Obtained(CacheAfter(services, models, k), later, k) == Obtained(services, models, k)
    ensures CacheAfter(CacheAfter(services, models, k), later, k) == CacheAfter(services, models, k)
  {
  }

  /** With every model registered, an empty cache builds the user service from User, UserRole and Role, in that order. */
  lemma UserServiceWiring(models: map<string, Json>)
    requires Usable(models, "User") && Usable(models, "UserRole") && Usable(models, "Role")
    ensures Obtained(map[], models, UserKind) == Got(Service(UserKind, [models["User"], models["UserRole"], models["Role"]]))
  {
    var needs := Needs(UserKind);
    assert forall i :: 0 <= i < |needs| ==> Usable(models, needs[i]) by {
      assert needs[0] == "User" && needs[1] == "UserRole" && needs[2] == "Role";
    }
    var r := Resolve(models, needs);
    assert r.value == [models["User"], models["UserRole"], models["Role"]];
  }

  /** The cache and the services collected so far while `getAllServices` runs. */
  datatype Step = Step(result: Got<seq<Service>>, cache: map<string, Service>)

  /** One more getter in `getAllServices`; nothing runs after a throw. */
  function Then(s: Step, models: map<string, Json>, k: Kind): (r: Step)
    ensures s.result.Thrown? ==> r == s
    ensures s.result.Got? ==> r.cache == CacheAfter(s.cache, models, k)
  {
    if s.result.Thrown? then s
    else
      var o := Obtained(s.cache, models, k);
      Step(if o.Got? then Got(s.result.value + [o.value]) else Thrown(o.message), CacheAfter(s.cache, models, k))
  }

  /** `getAllServices()`: the four getters in order, the services in that order. */
  function AllServices(services: map<string, Service>, models: map<string, Json>): Step {
    Then(Then(Then(Then(Step(Got([]), services), models, UserKind), models, CourseKind), models, AttendanceKind), models, HomeworkKind)
  }

  /**
   * A missing homework model makes `getAllServices` throw after the other
   * three services were built and cached.
   */
  lemma AllServicesPartial(models: map<string, Json>)
    requires forall i :: 0 <= i < |Needs(UserKind)| ==> Usable(models, Needs(UserKind)[i])
    requires forall i :: 0 <= i < |Needs(CourseKind)| ==> Usable(models, Needs(CourseKind)[i])
    requires forall i :: 0 <= i < |Needs(AttendanceKind)| ==> Usable(models, Needs(AttendanceKind)[i])
    requires !Usable(models, "Homework")
    ensures AllServices(map[], models).result == Thrown(NotFoundMessage("Homework"))
    ensures AllServices(map[], models).cache.Keys == {"userService", "courseService", "attendanceService"}
  {
    assert "userService"[0] != "courseService"[0] && "userService"[0] != "attendanceService"[0];
    assert "courseService"[0] != "attendanceService"[0] && "homeworkService"[0] != "userService"[0];
    assert "homeworkService"[0] != "courseService"[0] && "homeworkService"[0] != "attendanceService"[0];
    var s1 := Then(Step(Got([]), map[]), models, UserKind);
    assert s1.result.Got? && s1.cache.Keys == {"userService"};
    var s2 := Then(s1, models, CourseKind);
    assert s2.result.Got? && s2.cache.Keys == {"userService", "courseService"};
    var s3 := Then(s2, models, AttendanceKind);
    assert s3.result.Got? && s3.cache.Keys == {"userService", "courseService", "attendanceService"};
    assert Resolve(models, ["Homework"]) == Thrown(NotFoundMessage("Homework")) by {
      assert ["Homework"][..0] == [];
    }
    assert Needs(HomeworkKind)[..1] == ["Homework"];
    ResolveStops(models, Needs(HomeworkKind), 1);
  }

  /** The models after `registerModels(entries)`: each entry registered in turn, a later one overwriting. */
  function Registered(models: map<string, Json>, entries: seq<(string, Json)>): (r: map<string, Json>)
    ensures r.Keys == models.Keys + set i | 0 <= i < |entries| :: entries[i].0
  {
    if entries == [] then models
    else
      var front := Registered(models, entries[..|entries| - 1]);
      assert forall i :: 0 <= i < |entries| - 1 ==> entries[..|entries| - 1][i] == entries[i];
      front[entries[|entries| - 1].0 := entries[|entries| - 1].1]
  }

  /** A name no entry mentions keeps its model, or stays unregistered. */
  lemma {:induction false} RegisteredOthers(models: map<string, Json>, entries: seq<(string, Json)>, name: string)
    requires forall i :: 0 <= i < |entries| ==> entries[i].0 != name
    ensures name in Registered(models, entries) <==> name in models
    ensures name in models ==> Registered(models, entries)[name] == models[name]
  {
    if entries != [] {
      var front := entries[..|entries| - 1];
      assert forall i :: 0 <= i < |front| ==> front[i] == entries[i];
      RegisteredOthers(models, front, name);
    }
  }

  /** A name holds the model of the last entry that mentions it: a later registration overwrites. */
  lemma {:induction false} RegisteredLast(models: map<string, Json>, entries: seq<(string, Json)>, i: int)
    requires 0 <= i < |entries| && forall j :: i < j < |entries| ==> entries[j].0 != entries[i].0
    ensures Registered(models, entries)[entries[i].0] == entries[i].1
  {
    if i < |entries| - 1 {
      var front := entries[..|entries| - 1];
      assert forall j :: 0 <= j < |front| ==> front[j] == entries[j];
      RegisteredLast(models, front, i);
      assert entries[|entries| - 1].0 != entries[i].0;
    }
  }

  /** The factory: the model registry and the service cache. */
  class Factory {
    var services: map<string, Service>
    var models: map<string, Json>

    /** The private constructor: both maps start empty. */
    constructor ()
      ensures services == map[] && models == map[]
    {
      services := map[];
      models := map[];
    }

    /** `registerModel(name, model)`: overwrites any earlier registration. */
    method RegisterModel(name: string, model: Json)
      modifies this
      ensures models == old(models)[name := model] && services == old(services)
    {
      models := models[name := model];
    }

    /** `registerModels(models)`: each entry through `registerModel`. */
    method RegisterModels(entries: seq<(string, Json)>)
      modifies this
      ensures models == Registered(old(models), entries) && services == old(services)
    {
      var i := 0;
      while i < |entries|
        invariant 0 <= i <= |entries|
        invariant models == Registered(old(models), entries[..i]) && services == old(services)
      {
        assert entries[..i + 1][..i] == entries[..i];
        RegisterModel(entries[i].0, entries[i].1);
        i := i + 1;
      }
      assert entries[..i] == entries;
    }

    /** `getModel(name)`: the registered model, or the error thrown for a missing or falsy one. */
    method GetModel(name: string) returns (r: Got<Json>)
      ensures r.Got? <==> Usable(models, name)
      ensures r.Got? ==> r.value == models[name]
      ensures r.Thrown? ==> r.message == NotFoundMessage(name)
    {
      var m := if name in models then Some(models[name]) else None;
      if !TruthyOpt(m) {
        return Thrown(NotFoundMessage(name));
      }
      return Got(m.value);
    }

    /**
     * `getUserService`, `getCourseService`, `getAttendanceService` and
     * `getHomeworkService`: the cached service, else the models fetched one by
     * one with `getModel`, the first missing one throwing before anything is
     * cached.
     */
    method GetService(k: Kind) returns (r: Got<Service>)
      modifies this
      ensures r == Obtained(old(services), old(models), k)
      ensures services == CacheAfter(old(services), old(models), k) && models == old(models)
    {
      if Key(k) in services {
        return Got(services[Key(k)]);
      }
      var needs := Needs(k);
      var built: seq<Json> := [];
      var i := 0;
      while i < |needs|
        invariant 0 <= i <= |needs|
        invariant Resolve(models, needs[..i]) == Got(built)
        invariant services == old(services) && models == old(models)
      {
        var m := GetModel(needs[i]);
        assert needs[..i + 1][..i] == needs[..i];
        if m.Thrown? {
          ResolveStops(models, needs, i + 1);
          return Thrown(m.message);
        }
        built := built + [m.value];
        i := i + 1;
      }
      assert needs[..i] == needs;
      r := Got(Service(k, built));
      services := services[Key(k) := r.value];
    }

    /** `getAllServices()`: the four getters in order; a throw leaves the services built before it cached. */
    method GetAllServices() returns (r: Got<seq<Service>>)
      modifies this
      ensures r == AllServices(old(services), old(models)).result
      ensures services == AllServices(old(services), old(models)).cache && models == old(models)
    {
      var s := Step(Got([]), services);
      var kinds := [UserKind, CourseKind, AttendanceKind, HomeworkKind];
      var i := 0;
      while i < 4
        invariant 0 <= i <= 4
        invariant s.result.Got? ==> services == s.cache
        invariant models == old(models)
        invariant i == 0 ==> s == Step(Got([]), old(services))
        invariant i == 1 ==> s == Then(Step(Got([]), old(services)), models, UserKind)
        invariant i == 2 ==> s == Then(Then(Step(Got([]), old(services)), models, UserKind), models, CourseKind)
        invariant i == 3 ==> s == Then(Then(Then(Step(Got([]), old(services)), models, UserKind), models, CourseKind), models, AttendanceKind)
        invariant i == 4 ==> s == AllServices(old(services), old(models))
        invariant s.result.Thrown? ==> services == s.cache
      {
        if s.result.Got? {
          var o := GetService(kinds[i]);
          s := Step(if o.Got? then Got(s.result.value + [o.value]) else Thrown(o.message), services);
        }
        i := i + 1;
      }
      return s.result;
    }

    /** `clearServices()`: empties the cache only. */
    method ClearServices()
      modifies this
      ensures services == map[] && models == old(models)
    {
      services := map[];
    }

    /** `clearModels()`: empties the registry only. */
    method ClearModels()
      modifies this
      ensures models == map[] && services == old(services)
    {
      models := map[];
    }

    /** `reset()`: both. */
    method Reset()
      modifies this
      ensures services == map[] && models == map[]
    {
      ClearServices();
      ClearModels();
    }
  }

  /** The class's static `instance` slot. */
  class Singleton {
    var instance: Factory?

    constructor ()
      ensures instance == null
    {
      instance := null;
    }

    /** `getInstance()`: created on the first call, the same object on every later one. */
    method GetInstance() returns (f: Factory)
      modifies this
      ensures instance == f
      ensures old(instance) != null ==> f == old(instance)
      ensures old(instance) == null ==> fresh(f) && f.services == map[] && f.models == map[]
    {
      if instance == null {
        instance := new Factory();
      }
      return instance;
    }

    /** Two calls return the same factory. */
    method GetTwice() returns (a: Factory, b: Factory)
      modifies this
      ensures a == b && instance == a
    {
      a := GetInstance();
      b := GetInstance();
    }
  }
}
