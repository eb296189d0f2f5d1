/**
 * The kernel's own services: which objects the kernel hosts, by name and by reference, and the one pin each of
 * them holds through registrations, releases and restarts (packages/ocap-kernel/src/KernelServiceManager.ts).
 */
module KernelServices {
  import opened Prelude

  type ObjectId = nat

  datatype Service = Service(name: string, kref: ObjectId, implementation: nat, systemOnly: bool)

  datatype RegisterError = AlreadyRegistered

  function PinsOf(pins: map<ObjectId, nat>, k: ObjectId): nat {
    if k in pins then pins[k] else 0
  }

  /** The store has recorded the object as one the kernel hosts. */
  predicate Recorded(named: map<string, ObjectId>, anonymous: set<ObjectId>, k: ObjectId) {
    k in anonymous || k in named.Values
  }

  /** No two names share an object, no named object is anonymous, and each recorded object exists and holds one pin. */
  ghost predicate StoreKept(named: map<string, ObjectId>, anonymous: set<ObjectId>, pins: map<ObjectId, nat>, objects: set<ObjectId>, others: map<ObjectId, nat>) {
    && (forall a, b | a in named && b in named && named[a] == named[b] :: a == b)
    && anonymous !! named.Values
    && (forall k: ObjectId :: PinsOf(pins, k) == if Recorded(named, anonymous, k) then 1 else 0)
    && (forall k: ObjectId | Recorded(named, anonymous, k) || PinsOf(others, k) > 0 :: k in objects)
  }

  /** The two tables agree, and hold only what the store has recorded. */
  ghost predicate TablesAgree(byName: map<string, Service>, byObject: map<ObjectId, Service>, named: map<string, ObjectId>, anonymous: set<ObjectId>) {
    && (forall name | name in byName ::
          && byName[name].name == name && name in named && named[name] == byName[name].kref
          && byName[name].kref in byObject && byObject[byName[name].kref] == byName[name])
    && (forall k: ObjectId | k in byObject ::
          byObject[k].kref == k && (k in anonymous || (byObject[k].name in byName && byName[byObject[k].name] == byObject[k])))
  }

  class ServiceManager {
    // In memory: what this incarnation routes to.
    var byName: map<string, Service>
    var byObject: map<ObjectId, Service>
    // In the store: what outlives it.
    var named: map<string, ObjectId>
    var anonymous: set<ObjectId>
    var pins: map<ObjectId, nat>
    var objects: set<ObjectId>
    /** References anybody else holds to the kernel's objects. */
    var others: map<ObjectId, nat>
    var next: ObjectId

    ghost predicate Stored()
      reads this
    {
      StoreKept(named, anonymous, pins, objects, others) && forall k: ObjectId | k in objects :: k < next
    }

    ghost predicate Valid()
      reads this
    {
      Stored() && TablesAgree(byName, byObject, named, anonymous)
    }

    /** An object no record names stays so, and stays: nothing here takes it up again, and nothing deletes it. */
    twostate predicate OrphansStay()
      reads this
    {
      forall k: ObjectId | k in old(objects) && !Recorded(old(named), old(anonymous), k) :: k in objects && !Recorded(named, anonymous, k)
    }

    constructor ()
      ensures Valid() && byName == map[] && byObject == map[] && named == map[] && anonymous == {}
    {
      byName, byObject, named, anonymous, pins, objects, others, next := map[], map[], map[], {}, map[], {}, map[], 0;
    }

    method InitObject() returns (kref: ObjectId)
      modifies `objects, `next
      ensures kref == old(next) && next == kref + 1 && objects == old(objects) + {kref}
    {
      kref := next;
      objects, next := objects + {kref}, next + 1;
    }

    method Pin(kref: ObjectId)
      modifies `pins
      ensures forall k: ObjectId :: PinsOf(pins, k) == PinsOf(old(pins), k) + if k == kref then 1 else 0
    {
      pins := pins[kref := PinsOf(pins, kref) + 1];
    }

    /** Releasing a pin that is not held does nothing. */
    method Unpin(kref: ObjectId)
      modifies `pins
      ensures forall k: ObjectId :: PinsOf(pins, k) == if k == kref && PinsOf(old(pins), k) > 0 then PinsOf(old(pins), k) - 1 else PinsOf(old(pins), k)
    {
      var held := PinsOf(pins, kref);
      if held == 0 { return; }
      pins := if held == 1 then pins - {kref} else pins[kref := held - 1];
    }

    /** Register under a name: an object the store remembers for it is taken up again, pin and all. */
    method Register(name: string, implementation: nat, systemOnly: bool) returns (r: Result<Service, RegisterError>)
      requires Valid()
      modifies this
      ensures Valid() && others == old(others) && anonymous == old(anonymous) && OrphansStay()
      ensures r.Err? <==> name in old(byName)
      ensures r.Err? ==> unchanged(this)
      ensures r.Ok? ==>
                && r.value.name == name && r.value.implementation == implementation && r.value.systemOnly == systemOnly
                && byName == old(byName)[name := r.value] && byObject == old(byObject)[r.value.kref := r.value]
                && named == old(named)[name := r.value.kref]
                && (if name in old(named) then r.value.kref == old(named)[name] else r.value.kref !in old(objects) && !Recorded(old(named), old(anonymous), r.value.kref))
    {
      if name in byName { return Err(AlreadyRegistered); }
      var kref := ProvideObject(name);
      var service := Service(name, kref, implementation, systemOnly);
      RegisteringKeeps(byName, byObject, named, anonymous, service);
      byName, byObject := byName[name := service], byObject[kref := service];
      r := Ok(service);
    }

    /** The object the store remembers for a name, or a new one, named and pinned. */
    method ProvideObject(name: string) returns (kref: ObjectId)
      requires Valid()
      modifies `named, `pins, `objects, `next
      ensures Valid() && named == old(named)[name := kref] && (name in old(named) ==> kref == old(named)[name]) && OrphansStay()
      ensures name !in old(named) ==> kref !in old(objects) && !Recorded(old(named), old(anonymous), kref)
    {
      if name in named { return named[name]; }
      kref := InitObject();
      named := named[name := kref];
      Pin(kref);
      NamingKeeps(old(named), anonymous, old(pins), old(objects), others, name, kref, pins);
    }

    /** Forget a name. Its object keeps existing, with no record of it left: whatever comes later, it stays. */
    method Unregister(name: string)
      requires Valid()
      modifies this
      ensures Valid() && objects == old(objects) && others == old(others) && anonymous == old(anonymous) && OrphansStay()
      ensures name !in old(byName) ==> unchanged(this)
      ensures name in old(byName) ==> old(byName)[name].kref in objects && !Recorded(named, anonymous, old(byName)[name].kref)
      ensures name in old(byName) ==>
                && byName == old(byName) - {name} && named == old(named) - {name}
                && byObject == old(byObject) - {old(byName)[name].kref}
    {
      hide PinsOf;
      if name !in byName { return; }
      var service := byName[name];
      UnroutingKeeps(byName, byObject, named, anonymous, name);
      byName, byObject := byName - {name}, byObject - {service.kref};
      Unpin(service.kref);
      UnnamingKeeps(named, anonymous, old(pins), objects, others, name, pins);
      named := named - {name};
      hide StoreKept, TablesAgree;
    }

    /** Host an object only its reference reaches. */
    method RegisterAnonymous(implementation: nat, title: string) returns (kref: ObjectId)
      requires Valid()
      modifies this
      ensures Valid() && others == old(others) && byName == old(byName) && named == old(named) && OrphansStay()
      ensures kref !in old(objects) && !Recorded(old(named), old(anonymous), kref) && anonymous == old(anonymous) + {kref}
      ensures byObject == old(byObject)[kref := Service(title, kref, implementation, false)]
    {
      hide StoreKept, TablesAgree, PinsOf;
      kref := InitObject();
      FreshIsUnknown(byName, byObject, named, anonymous, pins, old(objects), others, kref);
      Pin(kref);
      anonymous := anonymous + {kref};
      byObject := byObject[kref := Service(title, kref, implementation, false)];
      HostingKeeps(named, old(anonymous), old(pins), old(objects), others, kref, pins);
      RoutingKeeps(byName, old(byObject), named, old(anonymous), byObject[kref]);
    }

    /** Give up the pin and the record of an anonymous object, which is deleted if nobody else refers to it. */
    method LetGo(kref: ObjectId)
      modifies `pins, `objects, `anonymous
      ensures forall k: ObjectId :: PinsOf(pins, k) == if k == kref && PinsOf(old(pins), k) > 0 then PinsOf(old(pins), k) - 1 else PinsOf(old(pins), k)
      ensures anonymous == old(anonymous) - {kref}
      ensures objects == if PinsOf(pins, kref) + PinsOf(others, kref) == 0 then old(objects) - {kref} else old(objects)
    {
      Unpin(kref);
      if PinsOf(pins, kref) + PinsOf(others, kref) == 0 { objects := objects - {kref}; }
      anonymous := anonymous - {kref};
    }

    /**
     * Release an anonymous object: for one that is not registered, nothing. Tables and pins stay right exactly
     * when the reference is not that of a named service, which would lose its route and its pin but not its name.
     */
    method ReleaseAnonymous(kref: ObjectId)
      requires Valid()
      modifies this
      ensures kref !in old(byObject) ==> unchanged(this)
      ensures byName == old(byName) && named == old(named) && others == old(others) && OrphansStay()
      ensures byObject == old(byObject) - {kref}
      ensures Valid() <==> !(exists name | name in old(byName) :: old(byName)[name].kref == kref)
      ensures Valid() && kref in old(byObject) ==>
                && anonymous == old(anonymous) - {kref}
                && objects == if PinsOf(others, kref) == 0 then old(objects) - {kref} else old(objects)
    {
      hide StoreKept, TablesAgree, PinsOf;
      RoutedIsRecorded(byName, byObject, named, anonymous, pins, objects, others, kref);
      if kref !in byObject { return; }
      byObject := byObject - {kref};
      LetGo(kref);
      if kref in old(anonymous) {
        LettingGoKeeps(named, old(anonymous), old(pins), old(objects), others, kref, pins, objects);
        UnroutedTables(byName, old(byObject), named, old(anonymous), kref);
      } else {
        NamedLosesRoute(byName, old(byObject), named, old(anonymous), kref);
      }
    }

    /** A new incarnation: the store is as it was, and nothing is registered. */
    method Restart()
      requires Stored()
      modifies `byName, `byObject
      ensures Valid() && byName == map[] && byObject == map[] && OrphansStay()
    {
      byName, byObject := map[], map[];
    }

    method DiscardOne(kref: ObjectId)
      requires Valid() && kref in anonymous && kref !in byObject
      modifies `pins, `objects, `anonymous
      ensures Valid() && anonymous == old(anonymous) - {kref}
      ensures objects == if PinsOf(others, kref) == 0 then old(objects) - {kref} else old(objects)
    {
      hide StoreKept, TablesAgree, PinsOf;
      LetGo(kref);
      LettingGoKeeps(named, old(anonymous), old(pins), old(objects), others, kref, pins, objects);
      UnroutedGoes(byName, byObject, named, old(anonymous), kref);
    }

    /** Discard what an earlier incarnation hosted and this one does not. */
    method ReleaseAbandoned() returns (count: nat)
      requires Valid()
      modifies this
      ensures Valid() && byName == old(byName) && byObject == old(byObject) && named == old(named) && others == old(others) && OrphansStay()
      ensures anonymous == old(anonymous) - Abandoned(old(anonymous), byObject)
      ensures objects == old(objects) - Unheld(Abandoned(old(anonymous), byObject), others)
      ensures count == |Abandoned(old(anonymous), byObject)|
    {
      hide StoreKept, TablesAgree, PinsOf;
      ghost var all := Abandoned(anonymous, byObject);
      var abandoned := Abandoned(anonymous, byObject);
      count := 0;
      while abandoned != {}
        modifies `pins, `objects, `anonymous
        invariant abandoned <= all && count + |abandoned| == |all|
        invariant forall k :: k in anonymous <==> k in old(anonymous) && (k in all ==> k in abandoned)
        invariant forall k :: k in objects <==> k in old(objects) && (k in all && PinsOf(others, k) == 0 ==> k in abandoned)
        invariant Valid()
        decreases abandoned
      {
        var kref :| kref in abandoned;
        DiscardOne(kref);
        abandoned := abandoned - {kref};
        count := count + 1;
      }
    }

    /** The service a message to this object reaches; a message to none has its result rejected, and nothing throws. */
    method Lookup(kref: ObjectId) returns (service: Option<Service>)
      requires Valid()
      ensures service.None? <==> kref !in byObject
      ensures service.Some? ==> service.value.kref == kref && PinsOf(pins, kref) == 1 && kref in objects
    {
      service := if kref in byObject then Some(byObject[kref]) else None;
    }
  }

  /** Anonymous objects recorded by an earlier incarnation and not registered in this one. */
  function Abandoned(anonymous: set<ObjectId>, byObject: map<ObjectId, Service>): set<ObjectId> {
    set k | k in anonymous && k !in byObject
  }

  /** Those nobody else refers to. */
  function Unheld(gone: set<ObjectId>, others: map<ObjectId, nat>): set<ObjectId> {
    set k | k in gone && PinsOf(others, k) == 0
  }

  lemma LettingGoKeeps(named: map<string, ObjectId>, anonymous: set<ObjectId>, pins: map<ObjectId, nat>, objects: set<ObjectId>, others: map<ObjectId, nat>,
                       kref: ObjectId, fewer: map<ObjectId, nat>, left: set<ObjectId>)
    requires StoreKept(named, anonymous, pins, objects, others) && kref in anonymous
    requires forall k: ObjectId :: PinsOf(fewer, k) == if k == kref && PinsOf(pins, k) > 0 then PinsOf(pins, k) - 1 else PinsOf(pins, k)
    requires left == if PinsOf(fewer, kref) + PinsOf(others, kref) == 0 then objects - {kref} else objects
    ensures StoreKept(named, anonymous - {kref}, fewer, left, others) && PinsOf(fewer, kref) == 0
  {
    assert PinsOf(pins, kref) == 1;
  }

  /** What is routed to is recorded: as an anonymous object, or else as that of one registered name. */
  lemma RoutedIsRecorded(byName: map<string, Service>, byObject: map<ObjectId, Service>, named: map<string, ObjectId>, anonymous: set<ObjectId>,
                         pins: map<ObjectId, nat>, objects: set<ObjectId>, others: map<ObjectId, nat>, kref: ObjectId)
    requires StoreKept(named, anonymous, pins, objects, others) && TablesAgree(byName, byObject, named, anonymous)
    ensures kref in byObject ==> Recorded(named, anonymous, kref) && kref in objects
    ensures (exists name | name in byName :: byName[name].kref == kref) <==> kref in byObject && kref !in anonymous
  {
    hide PinsOf;
    if kref in byObject && kref !in anonymous {
      var name := byObject[kref].name;
      assert byName[name] == byObject[kref] && named[name] == kref;
    }
  }

  lemma FreshIsUnknown(byName: map<string, Service>, byObject: map<ObjectId, Service>, named: map<string, ObjectId>, anonymous: set<ObjectId>,
                       pins: map<ObjectId, nat>, objects: set<ObjectId>, others: map<ObjectId, nat>, kref: ObjectId)
    requires StoreKept(named, anonymous, pins, objects, others) && TablesAgree(byName, byObject, named, anonymous) && kref !in objects
    ensures !Recorded(named, anonymous, kref) && kref !in byObject
  {
    hide PinsOf;
    RoutedIsRecorded(byName, byObject, named, anonymous, pins, objects, others, kref);
  }

  lemma HostingKeeps(named: map<string, ObjectId>, anonymous: set<ObjectId>, pins: map<ObjectId, nat>, objects: set<ObjectId>, others: map<ObjectId, nat>,
                     kref: ObjectId, more: map<ObjectId, nat>)
    requires StoreKept(named, anonymous, pins, objects, others) && !Recorded(named, anonymous, kref)
    requires forall k: ObjectId :: PinsOf(more, k) == PinsOf(pins, k) + if k == kref then 1 else 0
    ensures StoreKept(named, anonymous + {kref}, more, objects + {kref}, others)
  {
    hide PinsOf;
  }

  lemma RoutingKeeps(byName: map<string, Service>, byObject: map<ObjectId, Service>, named: map<string, ObjectId>, anonymous: set<ObjectId>, service: Service)
    requires TablesAgree(byName, byObject, named, anonymous) && service.kref !in byObject
    ensures TablesAgree(byName, byObject[service.kref := service], named, anonymous + {service.kref})
  {
  }

  lemma UnroutedTables(byName: map<string, Service>, byObject: map<ObjectId, Service>, named: map<string, ObjectId>, anonymous: set<ObjectId>, kref: ObjectId)
    requires TablesAgree(byName, byObject, named, anonymous) && !(exists name | name in byName :: byName[name].kref == kref)
    ensures TablesAgree(byName, byObject - {kref}, named, anonymous - {kref})
  {
  }

  /** A named service's object without a route: the name is still registered, and leads nowhere. */
  lemma NamedLosesRoute(byName: map<string, Service>, byObject: map<ObjectId, Service>, named: map<string, ObjectId>, anonymous: set<ObjectId>, kref: ObjectId)
    requires exists name | name in byName :: byName[name].kref == kref
    ensures !TablesAgree(byName, byObject - {kref}, named, anonymous - {kref})
  {
  }

  lemma UnroutedGoes(byName: map<string, Service>, byObject: map<ObjectId, Service>, named: map<string, ObjectId>, anonymous: set<ObjectId>, kref: ObjectId)
    requires TablesAgree(byName, byObject, named, anonymous) && kref !in byObject
    ensures TablesAgree(byName, byObject, named, anonymous - {kref})
  {
  }

  lemma UnroutingKeeps(byName: map<string, Service>, byObject: map<ObjectId, Service>, named: map<string, ObjectId>, anonymous: set<ObjectId>, name: string)
    requires TablesAgree(byName, byObject, named, anonymous) && name in byName
    requires forall a, b | a in named && b in named && named[a] == named[b] :: a == b
    ensures TablesAgree(byName - {name}, byObject - {byName[name].kref}, named - {name}, anonymous)
  {
  }

  lemma UnnamingKeeps(named: map<string, ObjectId>, anonymous: set<ObjectId>, pins: map<ObjectId, nat>, objects: set<ObjectId>, others: map<ObjectId, nat>,
                      name: string, fewer: map<ObjectId, nat>)
    requires StoreKept(named, anonymous, pins, objects, others) && name in named
    requires forall k: ObjectId :: PinsOf(fewer, k) == if k == named[name] && PinsOf(pins, k) > 0 then PinsOf(pins, k) - 1 else PinsOf(pins, k)
    ensures StoreKept(named - {name}, anonymous, fewer, objects, others)
    ensures forall k: ObjectId :: Recorded(named - {name}, anonymous, k) <==> Recorded(named, anonymous, k) && k != named[name]
    ensures named[name] in objects
  {
    hide PinsOf;
    NamedOneLess(named, name);
    assert Recorded(named, anonymous, named[name]);
  }

  lemma RegisteringKeeps(byName: map<string, Service>, byObject: map<ObjectId, Service>, named: map<string, ObjectId>, anonymous: set<ObjectId>, service: Service)
    requires TablesAgree(byName, byObject, named, anonymous) && service.name !in byName
    requires service.name in named && named[service.name] == service.kref && service.kref !in anonymous
    requires forall a, b | a in named && b in named && named[a] == named[b] :: a == b
    ensures TablesAgree(byName[service.name := service], byObject[service.kref := service], named, anonymous)
  {
  }

  lemma NamingKeeps(named: map<string, ObjectId>, anonymous: set<ObjectId>, pins: map<ObjectId, nat>, objects: set<ObjectId>, others: map<ObjectId, nat>,
                    name: string, kref: ObjectId, more: map<ObjectId, nat>)
    requires StoreKept(named, anonymous, pins, objects, others) && name !in named && kref !in objects
    requires forall k: ObjectId :: PinsOf(more, k) == PinsOf(pins, k) + if k == kref then 1 else 0
    ensures StoreKept(named[name := kref], anonymous, more, objects + {kref}, others)
  {
    NamedOneMore(named, name, kref);
    assert !Recorded(named, anonymous, kref) && kref !in named.Values;
  }

  lemma NamedOneMore(named: map<string, ObjectId>, name: string, kref: ObjectId)
    requires name !in named
    ensures named[name := kref].Values == named.Values + {kref}
  {
    var more := named[name := kref];
    forall k | k in named.Values ensures k in more.Values {
      var n :| n in named && named[n] == k;
      assert more[n] == k;
    }
    assert more[name] == kref;
  }

  lemma NamedOneLess(named: map<string, ObjectId>, name: string)
    requires name in named && forall a, b | a in named && b in named && named[a] == named[b] :: a == b
    ensures (named - {name}).Values == named.Values - {named[name]}
  {
    var fewer := named - {name};
    forall k | k in named.Values && k != named[name] ensures k in fewer.Values {
      var n :| n in named && named[n] == k;
      assert fewer[n] == k;
    }
  }
}
