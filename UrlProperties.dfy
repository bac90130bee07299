/** What the address built by `ToUrl` says: which parameters it carries,
    with which values, and how it reads back. */
module UrlProperties {
  import opened Wrappers
  import opened Strings
  import opened RequestRules

  // ---------------------------------------------------------------------
  // Every parameter written is a sound one

  /** Every parameter names a query property of the list, carries a value
      that survives both filters, and is the property's own value unless
      the property was redrawn, in which case it is one drawn environment. */
  lemma {:induction false} EmittedSound(r: Rules, site: ESite, e: Ordinals, fs: seq<Field>, draws: seq<nat>)
    ensures forall p | p in Emitted(r, site, e, fs, draws) ::
      && p.field in fs
      && IsQueryProperty(p.field)
      && Kept(site, p.field, p.value, e)
      && (!Redrawn(r, p.field) ==> p.value == ValueOf(r, p.field))
      && (r.equalEnvironmentDistribution && p.field == Environment ==> DrawnSingleton(p.value, r.environment, site, e))
      && (r.equalVehicleDistribution && p.field == Vehicle ==> DrawnSingleton(p.value, r.vehicle, site, e))
  {
    if fs != [] {
      var d := Decision(r, site, e, fs[0], draws);
      DecisionSound(r, site, e, fs[0], draws);
      EmittedSound(r, site, e, fs[1..], Step(r, site, e, fs[0], draws));
      assert forall p | p in Emitted(r, site, e, fs[1..], Step(r, site, e, fs[0], draws)) :: p.field in fs by {
        forall p | p in Emitted(r, site, e, fs[1..], Step(r, site, e, fs[0], draws)) ensures p.field in fs {
          assert p.field in fs[1..];
        }
      }
    }
  }

  /** No parameter is written twice when no property is listed twice: the
      fields of the parameters follow the list. */
  lemma {:induction false} EmittedFieldsAbsent(r: Rules, site: ESite, e: Ordinals, fs: seq<Field>, f: Field, draws: seq<nat>)
    requires f !in fs
    ensures Lookup(Emitted(r, site, e, fs, draws), f) == None
  {
    if fs != [] {
      EmittedFieldsAbsent(r, site, e, fs[1..], f, Step(r, site, e, fs[0], draws));
      var d := Decision(r, site, e, fs[0], draws);
      var tail := Emitted(r, site, e, fs[1..], Step(r, site, e, fs[0], draws));
      if d.Some? {
        assert Emitted(r, site, e, fs, draws) == [Param(fs[0], d.value)] + tail;
        assert ([Param(fs[0], d.value)] + tail)[1..] == tail;
      } else {
        assert Emitted(r, site, e, fs, draws) == tail;
      }
    }
  }

  /** The parameter for the property at position `k` of a list that names it
      once is what the loop decides there, with the draws the properties
      before it left. */
  lemma {:induction false} LookupEmitted(r: Rules, site: ESite, e: Ordinals, fs: seq<Field>, k: nat, draws: seq<nat>)
    requires k < |fs|
    requires fs[k] !in fs[..k] && fs[k] !in fs[k + 1..]
    ensures Lookup(Emitted(r, site, e, fs, draws), fs[k])
            == Decision(r, site, e, fs[k], DrawsThrough(r, site, e, fs[..k], draws))
  {
    var f := fs[k];
    var d := Decision(r, site, e, fs[0], draws);
    var next := Step(r, site, e, fs[0], draws);
    var tail := Emitted(r, site, e, fs[1..], next);
    if d.Some? {
      assert Emitted(r, site, e, fs, draws) == [Param(fs[0], d.value)] + tail;
      assert ([Param(fs[0], d.value)] + tail)[1..] == tail;
    } else {
      assert Emitted(r, site, e, fs, draws) == tail;
    }
    if k == 0 {
      assert fs[1..] == fs[k + 1..];
      EmittedFieldsAbsent(r, site, e, fs[1..], f, next);
      assert fs[..0] == [];
    } else {
      assert fs[0] in fs[..k];
      assert fs[1..][k - 1] == f;
      assert fs[1..][..k - 1] == fs[1..k];
      assert fs[1..][k..] == fs[k + 1..];
      assert f !in fs[1..][..k - 1] by {
        assert forall x | x in fs[1..k] :: x in fs[..k];
      }
      LookupEmitted(r, site, e, fs[1..], k - 1, next);
      assert fs[..k][1..] == fs[1..k];
    }
  }

  /** Properties that are never redrawn pass the draws through untouched. */
  lemma {:induction false} DrawsThroughStatic(r: Rules, site: ESite, e: Ordinals, fs: seq<Field>, draws: seq<nat>)
    requires forall j | 0 <= j < |fs| :: !Redrawn(r, fs[j])
    ensures DrawsThrough(r, site, e, fs, draws) == draws
  {
    if fs != [] {
      DrawsThroughStatic(r, site, e, fs[1..], draws);
    }
  }

  /** The draws left after a concatenation of two lists. */
  lemma {:induction false} DrawsThroughConcat(r: Rules, site: ESite, e: Ordinals, a: seq<Field>, b: seq<Field>, draws: seq<nat>)
    ensures DrawsThrough(r, site, e, a + b, draws)
            == DrawsThrough(r, site, e, b, DrawsThrough(r, site, e, a, draws))
  {
    if a == [] {
      assert a + b == b;
    } else {
      assert (a + b)[1..] == a[1..] + b;
      DrawsThroughConcat(r, site, e, a[1..], b, Step(r, site, e, a[0], draws));
    }
  }

  // ---------------------------------------------------------------------
  // The parameters of the rule class

  /** The parameter for a property, found at its place in the list. */
  lemma LookupField(r: Rules, site: ESite, e: Ordinals, f: Field, draws: seq<nat>)
    ensures Lookup(Emitted(r, site, e, Fields(), draws), f)
            == Decision(r, site, e, f, DrawsThrough(r, site, e, Fields()[..Rank(f)], draws))
  {
    var fs, k := Fields(), Rank(f);
    FieldsListed(f);
    assert fs[k] == f;
    assert f !in fs[..k] by {
      forall j | 0 <= j < k ensures fs[..k][j] != f {
        assert fs[j] != fs[k];
      }
    }
    assert f !in fs[k + 1..] by {
      forall j | k + 1 <= j < |fs| ensures fs[j] != f {
        assert fs[k] != fs[j];
      }
    }
    LookupEmitted(r, site, e, fs, k, draws);
  }

  /** A query property the loop does not redraw is written with its own
      value exactly when that value survives both filters, whatever the
      random draws. */
  lemma StaticParameter(r: Rules, site: ESite, e: Ordinals, f: Field, draws: seq<nat>)
    requires IsQueryProperty(f) && !Redrawn(r, f)
    ensures Lookup(Emitted(r, site, e, Fields(), draws), f)
            == if Kept(site, f, ValueOf(r, f), e) then Some(ValueOf(r, f)) else None
  {
    LookupField(r, site, e, f, draws);
    DecisionSound(r, site, e, f, DrawsThrough(r, site, e, Fields()[..Rank(f)], draws));
  }

  /** The three rule switches never become parameters. */
  lemma SwitchesNotWritten(r: Rules, site: ESite, e: Ordinals, draws: seq<nat>)
    ensures Lookup(Emitted(r, site, e, Fields(), draws), Site) == None
    ensures Lookup(Emitted(r, site, e, Fields(), draws), EqualEnvironmentDistribution) == None
    ensures Lookup(Emitted(r, site, e, Fields(), draws), EqualVehicleDistribution) == None
  {
    LookupField(r, site, e, Site, draws);
    LookupField(r, site, e, EqualEnvironmentDistribution, draws);
    LookupField(r, site, e, EqualVehicleDistribution, draws);
  }

  /** The first six properties, in declaration order. */
  lemma FieldsBeforeName()
    ensures Fields()[..4] == [Site, EqualEnvironmentDistribution, EqualVehicleDistribution, Author]
    ensures Fields()[..6] == Fields()[..4] + [Environment, Name]
  {
    var fs := Fields();
    assert fs[0] == FieldAt(0) && fs[1] == FieldAt(1) && fs[2] == FieldAt(2);
    assert fs[3] == FieldAt(3) && fs[4] == FieldAt(4) && fs[5] == FieldAt(5);
  }

  /** None of the four properties before Environment is redrawn. */
  lemma DrawsBeforeEnvironment(r: Rules, site: ESite, e: Ordinals, draws: seq<nat>)
    ensures DrawsThrough(r, site, e, Fields()[..4], draws) == draws
  {
    FieldsBeforeName();
    DrawsThroughStatic(r, site, e, [Site, EqualEnvironmentDistribution, EqualVehicleDistribution, Author], draws);
  }

  /** The environment parameter takes the first draw after the site choice. */
  lemma EnvironmentParameter(r: Rules, site: ESite, e: Ordinals, draws: seq<nat>)
    ensures Lookup(Emitted(r, site, e, Fields(), draws), Environment) == Decision(r, site, e, Environment, draws)
  {
    LookupField(r, site, e, Environment, draws);
    DrawsBeforeEnvironment(r, site, e, draws);
  }

  /** The vehicle parameter takes the draw after the environment's, or the
      first one when the environments are not redrawn. */
  lemma VehicleParameter(r: Rules, site: ESite, e: Ordinals, draws: seq<nat>)
    ensures Lookup(Emitted(r, site, e, Fields(), draws), Vehicle)
            == Decision(r, site, e, Vehicle, if r.equalEnvironmentDistribution then Rest(draws) else draws)
  {
    LookupField(r, site, e, Vehicle, draws);
    DrawsBeforeVehicle(r, site, e, draws);
  }

  /** Of the properties before Vehicle only Environment is redrawn. */
  lemma DrawsBeforeVehicle(r: Rules, site: ESite, e: Ordinals, draws: seq<nat>)
    ensures DrawsThrough(r, site, e, Fields()[..6], draws) == if r.equalEnvironmentDistribution then Rest(draws) else draws
  {
    FieldsBeforeName();
    DrawsBeforeEnvironment(r, site, e, draws);
    DrawsThroughConcat(r, site, e, Fields()[..4], [Environment, Name], draws);
    var afterEnvironment := Step(r, site, e, Environment, draws);
    assert [Environment, Name][1..] == [Name];
    assert DrawsThrough(r, site, e, [Name], afterEnvironment) == afterEnvironment by {
      assert [Name][1..] == [];
    }
  }

  // ---------------------------------------------------------------------
  // TMNF and Nations

  /** On TMNF and Nations the environment and vehicle parameters are always
      dropped: the filter compares the whole set with the single value
      Stadium, which a set never equals. */
  lemma NationsDropsEnvironments(r: Rules, site: ESite, e: Ordinals, draws: seq<nat>)
    requires site == TMNF || site == Nations
    ensures Lookup(Emitted(r, site, e, Fields(), draws), Environment) == None
    ensures Lookup(Emitted(r, site, e, Fields(), draws), Vehicle) == None
  {
    assert Lookup(Emitted(r, site, e, Fields(), draws), Environment) == None by {
      EnvironmentParameter(r, site, e, draws);
      NationsNeverEnvironment(r, site, e, Environment, draws);
    }
    VehicleParameter(r, site, e, draws);
    NationsNeverEnvironment(r, site, e, Vehicle, if r.equalEnvironmentDistribution then Rest(draws) else draws);
  }

  lemma NationsNeverEnvironment(r: Rules, site: ESite, e: Ordinals, f: Field, draws: seq<nat>)
    requires site == TMNF || site == Nations
    requires f == Environment || f == Vehicle
    ensures Decision(r, site, e, f, draws) == None
  {
    var v := Adjusted(r, site, e, f, draws).0;
    assert v.Set? || v.Null?;
  }

  /** On TMNF and Nations a primary type is sent only when it is Race. */
  lemma NationsPrimaryType(r: Rules, site: ESite, e: Ordinals, draws: seq<nat>)
    requires site == TMNF || site == Nations
    ensures Lookup(Emitted(r, site, e, Fields(), draws), PrimaryType)
            == if r.primaryType == Some(e.race) then Some(Enum(e.race)) else None
  {
    var v := ValueOf(r, PrimaryType);
    assert v == if r.primaryType.Some? then Enum(r.primaryType.value) else Null;
    assert Kept(site, PrimaryType, v, e) <==> r.primaryType == Some(e.race);
    StaticParameter(r, site, e, PrimaryType, draws);
  }

  /** Elsewhere, a configured non-empty environment set is sent as it is,
      unless it is redrawn. */
  lemma EnvironmentSentAsConfigured(r: Rules, site: ESite, e: Ordinals, draws: seq<nat>)
    requires site != TMNF && site != Nations && !r.equalEnvironmentDistribution
    requires r.environment.Some? && r.environment.value != []
    ensures Lookup(Emitted(r, site, e, Fields(), draws), Environment) == Some(Set(r.environment.value))
  {
    StaticParameter(r, site, e, Environment, draws);
  }

  /** An equally distributed environment is always sent off the Nations
      sites, as one environment from the set, or from the site's own ones
      when no set is configured. */
  lemma EqualEnvironmentSent(r: Rules, site: ESite, e: Ordinals, draws: seq<nat>)
    requires site != TMNF && site != Nations && r.equalEnvironmentDistribution
    ensures var p := Lookup(Emitted(r, site, e, Fields(), draws), Environment);
            p.Some? && DrawnSingleton(p.value, r.environment, site, e)
  {
    EnvironmentParameter(r, site, e, draws);
    RedrawnWritten(r, site, e, Environment, draws);
    DecisionSound(r, site, e, Environment, draws);
  }

  /** Elsewhere, a configured non-empty vehicle set is sent as it is,
      unless it is redrawn. */
  lemma VehicleSentAsConfigured(r: Rules, site: ESite, e: Ordinals, draws: seq<nat>)
    requires site != TMNF && site != Nations && !r.equalVehicleDistribution
    requires r.vehicle.Some? && r.vehicle.value != []
    ensures Lookup(Emitted(r, site, e, Fields(), draws), Vehicle) == Some(Set(r.vehicle.value))
  {
    VehicleParameter(r, site, e, draws);
    StaticVehicleWritten(r, site, e, if r.equalEnvironmentDistribution then Rest(draws) else draws);
  }

  /** An equally distributed vehicle is always sent off the Nations sites,
      as one environment from the vehicle set, or from the site's own ones
      when no set is configured, drawn after the environment's draw. */
  lemma EqualVehicleSent(r: Rules, site: ESite, e: Ordinals, draws: seq<nat>)
    requires site != TMNF && site != Nations && r.equalVehicleDistribution
    ensures var p := Lookup(Emitted(r, site, e, Fields(), draws), Vehicle);
            p.Some? && DrawnSingleton(p.value, r.vehicle, site, e)
  {
    VehicleParameter(r, site, e, draws);
    var after := if r.equalEnvironmentDistribution then Rest(draws) else draws;
    RedrawnWritten(r, site, e, Vehicle, after);
    DecisionSound(r, site, e, Vehicle, after);
  }
}
