/** Facts about the seed catalogs (src/data/sampleData.ts) under the
    matching rules of src/api/mockApi.ts: which engineers and suppliers each
    energy type selects, and the ranking of the first seed opportunity. */
module CatalogFacts {
  import opened Text
  import opened Seqs
  import opened SampleData
  import opened Ranking
  import opened MockApi

  /** A value equal to a term is a relevant value. */
  lemma Relevant(values: seq<string>, terms: seq<string>, v: string)
    requires v in values && v in terms
    ensures HasRelevant(values, terms)
  {
    ContainsSelf(v);
  }

  /** Every letter of "Turbines" occurs in "Turbine Blades", but not as a
      substring: the only 'T' is at the front, followed by "Turbine ". */
  lemma TurbineBladesLackTurbines()
    ensures !Contains("Turbine Blades", "Turbines")
  {
    var s := "Turbine Blades";
    var t := "Turbines";
    forall i | 0 <= i <= |s|
      ensures !OccursAt(s, t, i)
    {
      if i == 0 {
        assert s[7] != t[7];
      } else if i + |t| <= |s| {
        assert s[i] != t[0];
      }
    }
  }

  /** The catalog filtered entry by entry. */
  lemma RelevantEngineersOf6(a: Engineer, b: Engineer, c: Engineer, d: Engineer, e: Engineer, f: Engineer, terms: seq<string>)
    ensures RelevantEngineers([a, b, c, d, e, f], terms)
         == (if HasRelevant(a.skills, terms) then [a] else []) + (
            (if HasRelevant(b.skills, terms) then [b] else []) + (
            (if HasRelevant(c.skills, terms) then [c] else []) + (
            (if HasRelevant(d.skills, terms) then [d] else []) + (
            (if HasRelevant(e.skills, terms) then [e] else []) + (
            (if HasRelevant(f.skills, terms) then [f] else []) + (
            []))))))
  {
    assert [a, b, c, d, e, f] == [a] + ([b] + ([c] + ([d] + ([e] + ([f] + [])))));
    RelevantEngineersCons(a, [b] + ([c] + ([d] + ([e] + ([f] + [])))), terms);
    RelevantEngineersCons(b, [c] + ([d] + ([e] + ([f] + []))), terms);
    RelevantEngineersCons(c, [d] + ([e] + ([f] + [])), terms);
    RelevantEngineersCons(d, [e] + ([f] + []), terms);
    RelevantEngineersCons(e, [f] + [], terms);
    RelevantEngineersCons(f, [], terms);
  }


  lemma RelevantSuppliersOf6(a: Supplier, b: Supplier, c: Supplier, d: Supplier, e: Supplier, f: Supplier, terms: seq<string>)
    ensures RelevantSuppliers([a, b, c, d, e, f], terms)
         == (if HasRelevant(a.materials, terms) then [a] else []) + (
            (if HasRelevant(b.materials, terms) then [b] else []) + (
            (if HasRelevant(c.materials, terms) then [c] else []) + (
            (if HasRelevant(d.materials, terms) then [d] else []) + (
            (if HasRelevant(e.materials, terms) then [e] else []) + (
            (if HasRelevant(f.materials, terms) then [f] else []) + (
            []))))))
  {
    assert [a, b, c, d, e, f] == [a] + ([b] + ([c] + ([d] + ([e] + ([f] + [])))));
    RelevantSuppliersCons(a, [b] + ([c] + ([d] + ([e] + ([f] + [])))), terms);
    RelevantSuppliersCons(b, [c] + ([d] + ([e] + ([f] + []))), terms);
    RelevantSuppliersCons(c, [d] + ([e] + ([f] + [])), terms);
    RelevantSuppliersCons(d, [e] + ([f] + []), terms);
    RelevantSuppliersCons(e, [f] + [], terms);
    RelevantSuppliersCons(f, [], terms);
  }


  // The `Gather` lemmas join the pieces the filter leaves of a six-entry
  // catalog `a` to `f`. Each is named after the positions it keeps.

  /** Keeps entries 1, 3 and 5: the solar suppliers. */
  lemma Gather135<T>(a: T, b: T, c: T, d: T, e: T, f: T)
    ensures [a] + ([] + ([c] + ([] + ([e] + ([] + []))))) == [a, c, e]
  {
  }

  /** Keeps entries 1, 3 and 6: the solar engineers. */
  lemma Gather136<T>(a: T, b: T, c: T, d: T, e: T, f: T)
    ensures [a] + ([] + ([c] + ([] + ([] + ([f] + []))))) == [a, c, f]
  {
  }

  /** Keeps entry 2: the wind supplier. */
  lemma Gather2<T>(a: T, b: T, c: T, d: T, e: T, f: T)
    ensures [] + ([b] + ([] + ([] + ([] + ([] + []))))) == [b]
  {
  }

  /** Keeps entries 2 and 6: the wind engineers. */
  lemma Gather26<T>(a: T, b: T, c: T, d: T, e: T, f: T)
    ensures [] + ([b] + ([] + ([] + ([] + ([f] + []))))) == [b, f]
  {
  }

  /** Keeps entry 4: the hydro engineer, and the hydro and geothermal supplier. */
  lemma Gather4<T>(a: T, b: T, c: T, d: T, e: T, f: T)
    ensures [] + ([] + ([] + ([d] + ([] + ([] + []))))) == [d]
  {
  }

  /** Keeps entry 5: the geothermal engineer. */
  lemma Gather5<T>(a: T, b: T, c: T, d: T, e: T, f: T)
    ensures [] + ([] + ([] + ([] + ([e] + ([] + []))))) == [e]
  {
  }

  // Entries of the engineers catalog that an energy type does not select.

  lemma Eng2NotSolar()
    ensures !HasRelevant(Eng2.skills, ["Solar Installation", "Solar Design", "PV Systems"])
  {
    ContainsNone("Wind Energy", ["Solar Installation", "Solar Design", "PV Systems"], [-1, -1, 0]);
    ContainsNone("Turbine Installation", ["Solar Installation", "Solar Design", "PV Systems"], [0, 0, 0]);
    ContainsNone("Maintenance", ["Solar Installation", "Solar Design", "PV Systems"], [-1, -1, 0]);
  }

  lemma Eng4NotSolar()
    ensures !HasRelevant(Eng4.skills, ["Solar Installation", "Solar Design", "PV Systems"])
  {
    ContainsNone("Hydro Systems", ["Solar Installation", "Solar Design", "PV Systems"], [-1, 2, 0]);
    ContainsNone("Civil Engineering", ["Solar Installation", "Solar Design", "PV Systems"], [-1, 0, 0]);
    ContainsNone("Environmental Impact", ["Solar Installation", "Solar Design", "PV Systems"], [0, 0, 0]);
  }

  lemma Eng5NotSolar()
    ensures !HasRelevant(Eng5.skills, ["Solar Installation", "Solar Design", "PV Systems"])
  {
    ContainsNone("Geothermal Systems", ["Solar Installation", "Solar Design", "PV Systems"], [6, 6, 0]);
    ContainsNone("Drilling", ["Solar Installation", "Solar Design", "PV Systems"], [-1, -1, -1]);
    ContainsNone("Thermal Analysis", ["Solar Installation", "Solar Design", "PV Systems"], [-1, 0, 0]);
  }

  lemma Eng1NotWind()
    ensures !HasRelevant(Eng1.skills, ["Wind Energy", "Turbine Installation"])
  {
    ContainsNone("Solar Installation", ["Wind Energy", "Turbine Installation"], [0, -1]);
    ContainsNone("PV Systems", ["Wind Energy", "Turbine Installation"], [-1, -1]);
    ContainsNone("Grid Integration", ["Wind Energy", "Turbine Installation"], [0, -1]);
  }

  lemma Eng3NotWind()
    ensures !HasRelevant(Eng3.skills, ["Wind Energy", "Turbine Installation"])
  {
    ContainsNone("Solar Design", ["Wind Energy", "Turbine Installation"], [0, -1]);
    ContainsNone("Energy Audits", ["Wind Energy", "Turbine Installation"], [0, -1]);
    ContainsNone("System Optimization", ["Wind Energy", "Turbine Installation"], [0, -1]);
  }

  lemma Eng4NotWind()
    ensures !HasRelevant(Eng4.skills, ["Wind Energy", "Turbine Installation"])
  {
    ContainsNone("Hydro Systems", ["Wind Energy", "Turbine Installation"], [0, -1]);
    ContainsNone("Civil Engineering", ["Wind Energy", "Turbine Installation"], [0, -1]);
    ContainsNone("Environmental Impact", ["Wind Energy", "Turbine Installation"], [0, 0]);
  }

  lemma Eng5NotWind()
    ensures !HasRelevant(Eng5.skills, ["Wind Energy", "Turbine Installation"])
  {
    ContainsNone("Geothermal Systems", ["Wind Energy", "Turbine Installation"], [0, -1]);
    ContainsNone("Drilling", ["Wind Energy", "Turbine Installation"], [-1, -1]);
    ContainsNone("Thermal Analysis", ["Wind Energy", "Turbine Installation"], [0, -1]);
  }

  lemma Eng1NotHydro()
    ensures !HasRelevant(Eng1.skills, ["Hydro Systems", "Civil Engineering"])
  {
    ContainsNone("Solar Installation", ["Hydro Systems", "Civil Engineering"], [0, 0]);
    ContainsNone("PV Systems", ["Hydro Systems", "Civil Engineering"], [-1, -1]);
    ContainsNone("Grid Integration", ["Hydro Systems", "Civil Engineering"], [0, -1]);
  }

  lemma Eng2NotHydro()
    ensures !HasRelevant(Eng2.skills, ["Hydro Systems", "Civil Engineering"])
  {
    ContainsNone("Wind Energy", ["Hydro Systems", "Civil Engineering"], [-1, -1]);
    ContainsNone("Turbine Installation", ["Hydro Systems", "Civil Engineering"], [0, 0]);
    ContainsNone("Maintenance", ["Hydro Systems", "Civil Engineering"], [-1, -1]);
  }

  lemma Eng3NotHydro()
    ensures !HasRelevant(Eng3.skills, ["Hydro Systems", "Civil Engineering"])
  {
    ContainsNone("Solar Design", ["Hydro Systems", "Civil Engineering"], [-1, -1]);
    ContainsNone("Energy Audits", ["Hydro Systems", "Civil Engineering"], [0, -1]);
    ContainsNone("System Optimization", ["Hydro Systems", "Civil Engineering"], [0, 0]);
  }

  lemma Eng5NotHydro()
    ensures !HasRelevant(Eng5.skills, ["Hydro Systems", "Civil Engineering"])
  {
    ContainsNone("Geothermal Systems", ["Hydro Systems", "Civil Engineering"], [0, 0]);
    ContainsNone("Drilling", ["Hydro Systems", "Civil Engineering"], [-1, -1]);
    ContainsNone("Thermal Analysis", ["Hydro Systems", "Civil Engineering"], [0, -1]);
  }

  lemma Eng6NotHydro()
    ensures !HasRelevant(Eng6.skills, ["Hydro Systems", "Civil Engineering"])
  {
    ContainsNone("Wind Energy", ["Hydro Systems", "Civil Engineering"], [-1, -1]);
    ContainsNone("Project Management", ["Hydro Systems", "Civil Engineering"], [0, 0]);
    ContainsNone("Solar Installation", ["Hydro Systems", "Civil Engineering"], [0, 0]);
  }

  lemma Eng1NotGeothermal()
    ensures !HasRelevant(Eng1.skills, ["Geothermal Systems"])
  {
    ContainsNone("Solar Installation", ["Geothermal Systems"], [0]);
    ContainsNone("PV Systems", ["Geothermal Systems"], [-1]);
    ContainsNone("Grid Integration", ["Geothermal Systems"], [-1]);
  }

  lemma Eng2NotGeothermal()
    ensures !HasRelevant(Eng2.skills, ["Geothermal Systems"])
  {
    ContainsNone("Wind Energy", ["Geothermal Systems"], [-1]);
    ContainsNone("Turbine Installation", ["Geothermal Systems"], [0]);
    ContainsNone("Maintenance", ["Geothermal Systems"], [-1]);
  }

  lemma Eng3NotGeothermal()
    ensures !HasRelevant(Eng3.skills, ["Geothermal Systems"])
  {
    ContainsNone("Solar Design", ["Geothermal Systems"], [-1]);
    ContainsNone("Energy Audits", ["Geothermal Systems"], [-1]);
    ContainsNone("System Optimization", ["Geothermal Systems"], [0]);
  }

  lemma Eng4NotGeothermal()
    ensures !HasRelevant(Eng4.skills, ["Geothermal Systems"])
  {
    ContainsNone("Hydro Systems", ["Geothermal Systems"], [-1]);
    ContainsNone("Civil Engineering", ["Geothermal Systems"], [-1]);
    ContainsNone("Environmental Impact", ["Geothermal Systems"], [0]);
  }

  lemma Eng6NotGeothermal()
    ensures !HasRelevant(Eng6.skills, ["Geothermal Systems"])
  {
    ContainsNone("Wind Energy", ["Geothermal Systems"], [-1]);
    ContainsNone("Project Management", ["Geothermal Systems"], [0]);
    ContainsNone("Solar Installation", ["Geothermal Systems"], [0]);
  }

  /** Of six engineers, the relevant ones are entries 1, 3 and 6: the filter keeps exactly those. */
  lemma KeepEngineers136(a: Engineer, b: Engineer, c: Engineer, d: Engineer, e: Engineer, f: Engineer, terms: seq<string>)
    requires HasRelevant(a.skills, terms) && !HasRelevant(b.skills, terms) && HasRelevant(c.skills, terms)
    requires !HasRelevant(d.skills, terms) && !HasRelevant(e.skills, terms) && HasRelevant(f.skills, terms)
    ensures RelevantEngineers([a, b, c, d, e, f], terms) == [a, c, f]
  {
    RelevantEngineersOf6(a, b, c, d, e, f, terms);
    Gather136(a, b, c, d, e, f);
  }

  /** Of six engineers, the relevant ones are entries 2 and 6: the filter keeps exactly those. */
  lemma KeepEngineers26(a: Engineer, b: Engineer, c: Engineer, d: Engineer, e: Engineer, f: Engineer, terms: seq<string>)
    requires !HasRelevant(a.skills, terms) && HasRelevant(b.skills, terms) && !HasRelevant(c.skills, terms)
    requires !HasRelevant(d.skills, terms) && !HasRelevant(e.skills, terms) && HasRelevant(f.skills, terms)
    ensures RelevantEngineers([a, b, c, d, e, f], terms) == [b, f]
  {
    RelevantEngineersOf6(a, b, c, d, e, f, terms);
    Gather26(a, b, c, d, e, f);
  }

  /** Of six engineers, only entry 4 is relevant: the filter keeps it alone. */
  lemma KeepEngineers4(a: Engineer, b: Engineer, c: Engineer, d: Engineer, e: Engineer, f: Engineer, terms: seq<string>)
    requires !HasRelevant(a.skills, terms) && !HasRelevant(b.skills, terms) && !HasRelevant(c.skills, terms)
    requires HasRelevant(d.skills, terms) && !HasRelevant(e.skills, terms) && !HasRelevant(f.skills, terms)
    ensures RelevantEngineers([a, b, c, d, e, f], terms) == [d]
  {
    RelevantEngineersOf6(a, b, c, d, e, f, terms);
    Gather4(a, b, c, d, e, f);
  }

  /** Of six engineers, only entry 5 is relevant: the filter keeps it alone. */
  lemma KeepEngineers5(a: Engineer, b: Engineer, c: Engineer, d: Engineer, e: Engineer, f: Engineer, terms: seq<string>)
    requires !HasRelevant(a.skills, terms) && !HasRelevant(b.skills, terms) && !HasRelevant(c.skills, terms)
    requires !HasRelevant(d.skills, terms) && HasRelevant(e.skills, terms) && !HasRelevant(f.skills, terms)
    ensures RelevantEngineers([a, b, c, d, e, f], terms) == [e]
  {
    RelevantEngineersOf6(a, b, c, d, e, f, terms);
    Gather5(a, b, c, d, e, f);
  }

  /** Solar opportunities select the three engineers with a solar skill. */
  lemma SolarEngineers()
    ensures RelevantEngineers(SampleEngineers, Lookup(SkillMap, "solar")) == [Eng1, Eng3, Eng6]
  {
    var terms := ["Solar Installation", "Solar Design", "PV Systems"];
    assert Lookup(SkillMap, "solar") == terms;
    Relevant(Eng1.skills, terms, "Solar Installation");
    Eng2NotSolar();
    Relevant(Eng3.skills, terms, "Solar Design");
    Eng4NotSolar();
    Eng5NotSolar();
    Relevant(Eng6.skills, terms, "Solar Installation");
    KeepEngineers136(Eng1, Eng2, Eng3, Eng4, Eng5, Eng6, terms);
  }

  /** Wind opportunities select the two engineers with "Wind Energy". */
  lemma WindEngineers()
    ensures RelevantEngineers(SampleEngineers, Lookup(SkillMap, "wind")) == [Eng2, Eng6]
  {
    var terms := ["Wind Energy", "Turbine Installation"];
    assert Lookup(SkillMap, "wind") == terms;
    Eng1NotWind();
    Relevant(Eng2.skills, terms, "Wind Energy");
    Eng3NotWind();
    Eng4NotWind();
    Eng5NotWind();
    Relevant(Eng6.skills, terms, "Wind Energy");
    KeepEngineers26(Eng1, Eng2, Eng3, Eng4, Eng5, Eng6, terms);
  }

  /** Hydro opportunities select the hydro engineer only. */
  lemma HydroEngineers()
    ensures RelevantEngineers(SampleEngineers, Lookup(SkillMap, "hydro")) == [Eng4]
  {
    var terms := ["Hydro Systems", "Civil Engineering"];
    assert Lookup(SkillMap, "hydro") == terms;
    Eng1NotHydro();
    Eng2NotHydro();
    Eng3NotHydro();
    Relevant(Eng4.skills, terms, "Hydro Systems");
    Eng5NotHydro();
    Eng6NotHydro();
    KeepEngineers4(Eng1, Eng2, Eng3, Eng4, Eng5, Eng6, terms);
  }

  /** Geothermal opportunities select the geothermal engineer only. */
  lemma GeothermalEngineers()
    ensures RelevantEngineers(SampleEngineers, Lookup(SkillMap, "geothermal")) == [Eng5]
  {
    var terms := ["Geothermal Systems"];
    assert Lookup(SkillMap, "geothermal") == terms;
    Eng1NotGeothermal();
    Eng2NotGeothermal();
    Eng3NotGeothermal();
    Eng4NotGeothermal();
    Relevant(Eng5.skills, terms, "Geothermal Systems");
    Eng6NotGeothermal();
    KeepEngineers5(Eng1, Eng2, Eng3, Eng4, Eng5, Eng6, terms);
  }

  // Entries of the suppliers catalog that an energy type does not select.

  lemma Sup2NotSolar()
    ensures !HasRelevant(Sup2.materials, ["Solar Panels", "Inverters", "Batteries"])
  {
    ContainsNone("Turbine Blades", ["Solar Panels", "Inverters", "Batteries"], [0, 0, 2]);
    ContainsNone("Generators", ["Solar Panels", "Inverters", "Batteries"], [-1, 0, 0]);
    ContainsNone("Control Systems", ["Solar Panels", "Inverters", "Batteries"], [3, 0, 0]);
  }

  lemma Sup4NotSolar()
    ensures !HasRelevant(Sup4.materials, ["Solar Panels", "Inverters", "Batteries"])
  {
    ContainsNone("Turbines", ["Solar Panels", "Inverters", "Batteries"], [-1, -1, -1]);
    ContainsNone("Piping", ["Solar Panels", "Inverters", "Batteries"], [-1, -1, -1]);
    ContainsNone("Control Valves", ["Solar Panels", "Inverters", "Batteries"], [0, 0, 0]);
  }

  lemma Sup6NotSolar()
    ensures !HasRelevant(Sup6.materials, ["Solar Panels", "Inverters", "Batteries"])
  {
    ContainsNone("Drilling Equipment", ["Solar Panels", "Inverters", "Batteries"], [0, 0, 0]);
    ContainsNone("Heat Exchangers", ["Solar Panels", "Inverters", "Batteries"], [0, 0, 0]);
    ContainsNone("Geothermal Pumps", ["Solar Panels", "Inverters", "Batteries"], [0, 0, 0]);
  }

  lemma Sup1NotWind()
    ensures !HasRelevant(Sup1.materials, ["Turbine Blades", "Wind Turbines", "Generators"])
  {
    ContainsNone("Solar Panels", ["Turbine Blades", "Wind Turbines", "Generators"], [-1, -1, 0]);
    ContainsNone("Inverters", ["Turbine Blades", "Wind Turbines", "Generators"], [-1, -1, -1]);
    ContainsNone("Mounting Systems", ["Turbine Blades", "Wind Turbines", "Generators"], [0, 0, 0]);
  }

  lemma Sup3NotWind()
    ensures !HasRelevant(Sup3.materials, ["Turbine Blades", "Wind Turbines", "Generators"])
  {
    ContainsNone("Solar Panels", ["Turbine Blades", "Wind Turbines", "Generators"], [-1, -1, 0]);
    ContainsNone("Batteries", ["Turbine Blades", "Wind Turbines", "Generators"], [-1, -1, -1]);
    ContainsNone("Wiring", ["Turbine Blades", "Wind Turbines", "Generators"], [-1, -1, -1]);
    ContainsNone("Monitoring Equipment", ["Turbine Blades", "Wind Turbines", "Generators"], [0, 0, 0]);
  }

  lemma Sup4NotWind()
    ensures !HasRelevant(Sup4.materials, ["Turbine Blades", "Wind Turbines", "Generators"])
  {
    ContainsNone("Turbines", ["Turbine Blades", "Wind Turbines", "Generators"], [-1, -1, -1]);
    ContainsNone("Piping", ["Turbine Blades", "Wind Turbines", "Generators"], [-1, -1, -1]);
    ContainsNone("Control Valves", ["Turbine Blades", "Wind Turbines", "Generators"], [0, 0, 0]);
  }

  lemma Sup5NotWind()
    ensures !HasRelevant(Sup5.materials, ["Turbine Blades", "Wind Turbines", "Generators"])
  {
    ContainsNone("Solar Panels", ["Turbine Blades", "Wind Turbines", "Generators"], [-1, -1, 0]);
    ContainsNone("Inverters", ["Turbine Blades", "Wind Turbines", "Generators"], [-1, -1, -1]);
    ContainsNone("Batteries", ["Turbine Blades", "Wind Turbines", "Generators"], [-1, -1, -1]);
    ContainsNone("Accessories", ["Turbine Blades", "Wind Turbines", "Generators"], [-1, -1, 0]);
  }

  lemma Sup6NotWind()
    ensures !HasRelevant(Sup6.materials, ["Turbine Blades", "Wind Turbines", "Generators"])
  {
    ContainsNone("Drilling Equipment", ["Turbine Blades", "Wind Turbines", "Generators"], [0, 0, 0]);
    ContainsNone("Heat Exchangers", ["Turbine Blades", "Wind Turbines", "Generators"], [0, 0, 0]);
    ContainsNone("Geothermal Pumps", ["Turbine Blades", "Wind Turbines", "Generators"], [0, 0, 2]);
  }

  lemma Sup1NotHydro()
    ensures !HasRelevant(Sup1.materials, ["Turbines", "Piping", "Control Valves"])
  {
    ContainsNone("Solar Panels", ["Turbines", "Piping", "Control Valves"], [0, 1, -1]);
    ContainsNone("Inverters", ["Turbines", "Piping", "Control Valves"], [0, 0, -1]);
    ContainsNone("Mounting Systems", ["Turbines", "Piping", "Control Valves"], [0, 0, 0]);
  }

  lemma Sup2NotHydro()
    ensures !HasRelevant(Sup2.materials, ["Turbines", "Piping", "Control Valves"])
  {
    TurbineBladesLackTurbines();
    MissingCharNotContained("Turbine Blades", "Piping", 0);
    MissingCharNotContained("Turbine Blades", "Control Valves", 0);
    ContainsNone("Generators", ["Turbines", "Piping", "Control Valves"], [0, 0, -1]);
    ContainsNone("Control Systems", ["Turbines", "Piping", "Control Valves"], [0, 0, 8]);
  }

  lemma Sup3NotHydro()
    ensures !HasRelevant(Sup3.materials, ["Turbines", "Piping", "Control Valves"])
  {
    ContainsNone("Solar Panels", ["Turbines", "Piping", "Control Valves"], [0, 1, -1]);
    ContainsNone("Batteries", ["Turbines", "Piping", "Control Valves"], [0, 0, -1]);
    ContainsNone("Wiring", ["Turbines", "Piping", "Control Valves"], [-1, 0, -1]);
    ContainsNone("Monitoring Equipment", ["Turbines", "Piping", "Control Valves"], [0, 0, 0]);
  }

  lemma Sup5NotHydro()
    ensures !HasRelevant(Sup5.materials, ["Turbines", "Piping", "Control Valves"])
  {
    ContainsNone("Solar Panels", ["Turbines", "Piping", "Control Valves"], [0, 1, -1]);
    ContainsNone("Inverters", ["Turbines", "Piping", "Control Valves"], [0, 0, -1]);
    ContainsNone("Batteries", ["Turbines", "Piping", "Control Valves"], [0, 0, -1]);
    ContainsNone("Accessories", ["Turbines", "Piping", "Control Valves"], [0, 0, -1]);
  }

  lemma Sup6NotHydro()
    ensures !HasRelevant(Sup6.materials, ["Turbines", "Piping", "Control Valves"])
  {
    ContainsNone("Drilling Equipment", ["Turbines", "Piping", "Control Valves"], [0, 0, 0]);
    ContainsNone("Heat Exchangers", ["Turbines", "Piping", "Control Valves"], [0, 0, 0]);
    ContainsNone("Geothermal Pumps", ["Turbines", "Piping", "Control Valves"], [0, 1, 0]);
  }

  lemma Sup1NotGeothermal()
    ensures !HasRelevant(Sup1.materials, ["Heat Pumps", "Piping"])
  {
    ContainsNone("Solar Panels", ["Heat Pumps", "Piping"], [0, 1]);
    ContainsNone("Inverters", ["Heat Pumps", "Piping"], [-1, 0]);
    ContainsNone("Mounting Systems", ["Heat Pumps", "Piping"], [0, 0]);
  }

  lemma Sup2NotGeothermal()
    ensures !HasRelevant(Sup2.materials, ["Heat Pumps", "Piping"])
  {
    ContainsNone("Turbine Blades", ["Heat Pumps", "Piping"], [0, 0]);
    ContainsNone("Generators", ["Heat Pumps", "Piping"], [0, 0]);
    ContainsNone("Control Systems", ["Heat Pumps", "Piping"], [0, 0]);
  }

  lemma Sup3NotGeothermal()
    ensures !HasRelevant(Sup3.materials, ["Heat Pumps", "Piping"])
  {
    ContainsNone("Solar Panels", ["Heat Pumps", "Piping"], [0, 1]);
    ContainsNone("Batteries", ["Heat Pumps", "Piping"], [-1, 0]);
    ContainsNone("Wiring", ["Heat Pumps", "Piping"], [-1, 0]);
    ContainsNone("Monitoring Equipment", ["Heat Pumps", "Piping"], [0, 0]);
  }

  lemma Sup5NotGeothermal()
    ensures !HasRelevant(Sup5.materials, ["Heat Pumps", "Piping"])
  {
    ContainsNone("Solar Panels", ["Heat Pumps", "Piping"], [0, 1]);
    ContainsNone("Inverters", ["Heat Pumps", "Piping"], [-1, 0]);
    ContainsNone("Batteries", ["Heat Pumps", "Piping"], [-1, 0]);
    ContainsNone("Accessories", ["Heat Pumps", "Piping"], [0, 0]);
  }

  lemma Sup6NotGeothermal()
    ensures !HasRelevant(Sup6.materials, ["Heat Pumps", "Piping"])
  {
    ContainsNone("Drilling Equipment", ["Heat Pumps", "Piping"], [0, 0]);
    ContainsNone("Heat Exchangers", ["Heat Pumps", "Piping"], [5, 0]);
    ContainsNone("Geothermal Pumps", ["Heat Pumps", "Piping"], [0, 1]);
  }

  /** Of six suppliers, the relevant ones are entries 1, 3 and 5: the filter keeps exactly those. */
  lemma KeepSuppliers135(a: Supplier, b: Supplier, c: Supplier, d: Supplier, e: Supplier, f: Supplier, terms: seq<string>)
    requires HasRelevant(a.materials, terms) && !HasRelevant(b.materials, terms) && HasRelevant(c.materials, terms)
    requires !HasRelevant(d.materials, terms) && HasRelevant(e.materials, terms) && !HasRelevant(f.materials, terms)
    ensures RelevantSuppliers([a, b, c, d, e, f], terms) == [a, c, e]
  {
    RelevantSuppliersOf6(a, b, c, d, e, f, terms);
    Gather135(a, b, c, d, e, f);
  }

  /** Of six suppliers, only entry 2 is relevant: the filter keeps it alone. */
  lemma KeepSuppliers2(a: Supplier, b: Supplier, c: Supplier, d: Supplier, e: Supplier, f: Supplier, terms: seq<string>)
    requires !HasRelevant(a.materials, terms) && HasRelevant(b.materials, terms) && !HasRelevant(c.materials, terms)
    requires !HasRelevant(d.materials, terms) && !HasRelevant(e.materials, terms) && !HasRelevant(f.materials, terms)
    ensures RelevantSuppliers([a, b, c, d, e, f], terms) == [b]
  {
    RelevantSuppliersOf6(a, b, c, d, e, f, terms);
    Gather2(a, b, c, d, e, f);
  }

  /** Of six suppliers, only entry 4 is relevant: the filter keeps it alone. */
  lemma KeepSuppliers4(a: Supplier, b: Supplier, c: Supplier, d: Supplier, e: Supplier, f: Supplier, terms: seq<string>)
    requires !HasRelevant(a.materials, terms) && !HasRelevant(b.materials, terms) && !HasRelevant(c.materials, terms)
    requires HasRelevant(d.materials, terms) && !HasRelevant(e.materials, terms) && !HasRelevant(f.materials, terms)
    ensures RelevantSuppliers([a, b, c, d, e, f], terms) == [d]
  {
    RelevantSuppliersOf6(a, b, c, d, e, f, terms);
    Gather4(a, b, c, d, e, f);
  }

  /** Solar opportunities select the three panel suppliers. */
  lemma SolarSuppliers()
    ensures RelevantSuppliers(SampleSuppliers, Lookup(MaterialMap, "solar")) == [Sup1, Sup3, Sup5]
  {
    var terms := ["Solar Panels", "Inverters", "Batteries"];
    assert Lookup(MaterialMap, "solar") == terms;
    Relevant(Sup1.materials, terms, "Solar Panels");
    Sup2NotSolar();
    Relevant(Sup3.materials, terms, "Solar Panels");
    Sup4NotSolar();
    Relevant(Sup5.materials, terms, "Solar Panels");
    Sup6NotSolar();
    KeepSuppliers135(Sup1, Sup2, Sup3, Sup4, Sup5, Sup6, terms);
  }

  /** Wind opportunities select the turbine-blade supplier only. */
  lemma WindSuppliers()
    ensures RelevantSuppliers(SampleSuppliers, Lookup(MaterialMap, "wind")) == [Sup2]
  {
    var terms := ["Turbine Blades", "Wind Turbines", "Generators"];
    assert Lookup(MaterialMap, "wind") == terms;
    Sup1NotWind();
    Relevant(Sup2.materials, terms, "Turbine Blades");
    Sup3NotWind();
    Sup4NotWind();
    Sup5NotWind();
    Sup6NotWind();
    KeepSuppliers2(Sup1, Sup2, Sup3, Sup4, Sup5, Sup6, terms);
  }

  /** Hydro opportunities select the hydro equipment supplier only. */
  lemma HydroSuppliers()
    ensures RelevantSuppliers(SampleSuppliers, Lookup(MaterialMap, "hydro")) == [Sup4]
  {
    var terms := ["Turbines", "Piping", "Control Valves"];
    assert Lookup(MaterialMap, "hydro") == terms;
    Sup1NotHydro();
    Sup2NotHydro();
    Sup3NotHydro();
    Relevant(Sup4.materials, terms, "Turbines");
    Sup5NotHydro();
    Sup6NotHydro();
    KeepSuppliers4(Sup1, Sup2, Sup3, Sup4, Sup5, Sup6, terms);
  }

  /** Geothermal opportunities select the hydro equipment supplier, through its
      "Piping", and not the geothermal supplier: "Heat Exchangers" and
      "Geothermal Pumps" contain neither "Heat Pumps" nor "Piping". */
  lemma GeothermalSuppliers()
    ensures RelevantSuppliers(SampleSuppliers, Lookup(MaterialMap, "geothermal")) == [Sup4]
  {
    var terms := ["Heat Pumps", "Piping"];
    assert Lookup(MaterialMap, "geothermal") == terms;
    Sup1NotGeothermal();
    Sup2NotGeothermal();
    Sup3NotGeothermal();
    Relevant(Sup4.materials, terms, "Piping");
    Sup5NotGeothermal();
    Sup6NotGeothermal();
    KeepSuppliers4(Sup1, Sup2, Sup3, Sup4, Sup5, Sup6, terms);
  }

  /** Ids are unique within each seed catalog. */
  lemma SeedIdsUnique()
    ensures forall i, j :: 0 <= i < j < |SamplePredictions| ==> SamplePredictions[i].id != SamplePredictions[j].id
    ensures forall i, j :: 0 <= i < j < |SampleEngineers| ==> SampleEngineers[i].id != SampleEngineers[j].id
    ensures forall i, j :: 0 <= i < j < |SampleSuppliers| ==> SampleSuppliers[i].id != SampleSuppliers[j].id
  {
  }

  /** Every seed trend series has five points, never falls, and ends at the
      predicted output of its opportunity. */
  lemma SeedSparklines()
    ensures forall p :: p in SamplePredictions ==>
              |p.sampleSparkline| == 5 && p.sampleSparkline[4] == p.predictedKW && NonDecreasing(p.sampleSparkline)
  {
    forall p | p in SamplePredictions
      ensures |p.sampleSparkline| == 5 && p.sampleSparkline[4] == p.predictedKW && NonDecreasing(p.sampleSparkline)
    {
      FiveRising(p.sampleSparkline);
    }
  }

  /** Five points, each at least the one before, never fall. */
  lemma FiveRising(s: seq<int>)
    requires |s| == 5 && s[0] <= s[1] <= s[2] <= s[3] <= s[4]
    ensures NonDecreasing(s)
  {
  }

  /** Every seed coordinate is a valid latitude and longitude. */
  lemma SeedCoordinatesValid()
    ensures forall p :: p in SamplePredictions ==> -90.0 <= p.lat <= 90.0 && -180.0 <= p.lng <= 180.0
    ensures forall e :: e in SampleEngineers ==> -90.0 <= e.lat <= 90.0 && -180.0 <= e.lng <= 180.0
  {
  }

  /** The distances from Nairobi, where the first seed opportunity is: the
      Nairobi engineer is on the spot, Garissa is nearer than Mombasa. */
  lemma NairobiDistances()
    ensures SqDistance(Eng1, -1.286389, 36.817223) == 0.0
    ensures 0.0 < SqDistance(Eng6, -1.286389, 36.817223) < SqDistance(Eng3, -1.286389, 36.817223)
  {
  }

  /** A solar opportunity is offered the three panel suppliers in catalog
      order; at Nairobi, where the first seed opportunity is, it is offered
      the solar engineers of Nairobi, Garissa and Mombasa, in that order. */
  lemma SolarOpportunityMatches(p: Prediction)
    requires p.energyType == Solar
    ensures GetMatchedSuppliers(p) == [Sup1, Sup3, Sup5]
    ensures p.lat == -1.286389 && p.lng == 36.817223 ==> GetMatchedEngineers(p) == [Eng1, Eng6, Eng3]
  {
    GetMatchedByName(p, "solar");
    SolarSuppliers();
    if p.lat == -1.286389 && p.lng == 36.817223 {
      SolarEngineers();
      NairobiDistances();
      RankingOfThree(Eng1, Eng3, Eng6, p.lat, p.lng);
      MatchEngineersOfFew(SampleEngineers, Lookup(SkillMap, "solar"), p.lat, p.lng, [Eng1, Eng6, Eng3]);
    }
  }

  /** A wind opportunity is offered both wind engineers, in an order that
      depends on where it is, and the turbine-blade supplier alone. */
  lemma WindOpportunityMatches(p: Prediction)
    requires p.energyType == Wind
    ensures multiset(GetMatchedEngineers(p)) == multiset{Eng2, Eng6}
    ensures GetMatchedSuppliers(p) == [Sup2]
  {
    GetMatchedByName(p, "wind");
    WindEngineersAnywhere(p.lat, p.lng);
    WindSuppliers();
  }

  lemma WindEngineersAnywhere(lat: real, lng: real)
    ensures multiset(MatchEngineers(SampleEngineers, Lookup(SkillMap, "wind"), lat, lng)) == multiset{Eng2, Eng6}
  {
    WindEngineers();
    MatchEngineersKeepsAllOfFew(SampleEngineers, Lookup(SkillMap, "wind"), lat, lng);
  }

  /** A hydro opportunity is offered the hydro engineer and the hydro
      equipment supplier, wherever it is. */
  lemma HydroOpportunityMatches(p: Prediction)
    requires p.energyType == Hydro
    ensures GetMatchedEngineers(p) == [Eng4]
    ensures GetMatchedSuppliers(p) == [Sup4]
  {
    GetMatchedByName(p, "hydro");
    HydroEngineersAnywhere(p.lat, p.lng);
    Sup4Alone("hydro");
  }

  lemma HydroEngineersAnywhere(lat: real, lng: real)
    ensures MatchEngineers(SampleEngineers, Lookup(SkillMap, "hydro"), lat, lng) == [Eng4]
  {
    HydroEngineers();
    SingleEngineerAnywhere(Lookup(SkillMap, "hydro"), Eng4, lat, lng);
  }

  /** A geothermal opportunity is offered the geothermal engineer and,
      through "Piping", the hydro equipment supplier, wherever it is. */
  lemma GeothermalOpportunityMatches(p: Prediction)
    requires p.energyType == Geothermal
    ensures GetMatchedEngineers(p) == [Eng5]
    ensures GetMatchedSuppliers(p) == [Sup4]
  {
    GetMatchedByName(p, "geothermal");
    GeothermalEngineersAnywhere(p.lat, p.lng);
    Sup4Alone("geothermal");
  }

  lemma GeothermalEngineersAnywhere(lat: real, lng: real)
    ensures MatchEngineers(SampleEngineers, Lookup(SkillMap, "geothermal"), lat, lng) == [Eng5]
  {
    GeothermalEngineers();
    SingleEngineerAnywhere(Lookup(SkillMap, "geothermal"), Eng5, lat, lng);
  }

  /** Hydro and geothermal materials are both matched by sup-4 alone. */
  lemma Sup4Alone(name: string)
    requires name == "hydro" || name == "geothermal"
    ensures MatchSuppliers(SampleSuppliers, Lookup(MaterialMap, name)) == [Sup4]
  {
    if name == "hydro" {
      HydroSuppliers();
    } else {
      GeothermalSuppliers();
    }
  }

  /** The matches of an opportunity are those for the name of its type. */
  lemma GetMatchedByName(p: Prediction, name: string)
    requires EnergyTypeName(p.energyType) == name
    ensures GetMatchedEngineers(p) == MatchEngineers(SampleEngineers, Lookup(SkillMap, name), p.lat, p.lng)
    ensures GetMatchedSuppliers(p) == MatchSuppliers(SampleSuppliers, Lookup(MaterialMap, name))
  {
  }

  /** Terms that select a single engineer match that engineer wherever the
      opportunity is. */
  lemma SingleEngineerAnywhere(terms: seq<string>, e: Engineer, lat: real, lng: real)
    requires RelevantEngineers(SampleEngineers, terms) == [e]
    ensures MatchEngineers(SampleEngineers, terms, lat, lng) == [e]
  {
    RankingOfOne(e, lat, lng);
    MatchEngineersOfFew(SampleEngineers, terms, lat, lng, [e]);
  }

  lemma KeepFirstOfTwo(a: Engineer, b: Engineer, terms: seq<string>)
    requires HasRelevant(a.skills, terms) && !HasRelevant(b.skills, terms)
    ensures RelevantEngineers([a, b], terms) == [a]
  {
    RelevantEngineersCons(a, [b], terms);
    RelevantEngineersCons(b, [], terms);
    assert [a, b] == [a] + [b];
  }

  lemma OnlyWindEngineerRelevant(wind: Engineer, solar: Engineer, terms: seq<string>)
    requires wind.skills == ["Wind Energy"] && solar.skills == ["Solar Installation"]
    requires terms == ["Wind Energy", "Turbine Installation"]
    ensures RelevantEngineers([wind, solar], terms) == [wind]
  {
    Relevant(wind.skills, terms, "Wind Energy");
    ContainsNone("Solar Installation", terms, [0, 0]);
    KeepFirstOfTwo(wind, solar, terms);
  }

  /** A wind opportunity offered one wind engineer and one solar engineer is
      matched with the wind engineer alone, wherever the two are. */
  lemma WindOpportunityPicksWindEngineer(wind: Engineer, solar: Engineer, lat: real, lng: real)
    requires wind.skills == ["Wind Energy"] && solar.skills == ["Solar Installation"]
    ensures MatchEngineers([wind, solar], Lookup(SkillMap, "wind"), lat, lng) == [wind]
  {
    var terms := ["Wind Energy", "Turbine Installation"];
    assert Lookup(SkillMap, "wind") == terms;
    OnlyWindEngineerRelevant(wind, solar, terms);
    RankingOfOne(wind, lat, lng);
    MatchEngineersOfFew([wind, solar], terms, lat, lng, [wind]);
  }
}
