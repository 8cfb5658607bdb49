/** The record types of the marketplace and its static seed catalog
    (src/data/sampleData.ts). Kilowatt figures and ratings are kept as whole
    tenths, the one fractional digit the data carries; coordinates are reals. */
module SampleData {
  import opened Optional

  /** A quantity with one fractional digit, counted in tenths (3.8 is 38). */
  type Tenths = int

  datatype EnergyType = Solar | Wind | Hydro | Geothermal

  datatype Confidence = Low | Medium | High

  datatype Availability = Available | Busy | Booked

  /** The lower-case name an energy type carries in the source
      (`'solar' | 'wind' | 'hydro' | 'geothermal'`). */
  function EnergyTypeName(t: EnergyType): string {
    match t
    case Solar => "solar"
    case Wind => "wind"
    case Hydro => "hydro"
    case Geothermal => "geothermal"
  }

  /** An opportunity: a producer's site with its estimated potential. */
  datatype Prediction = Prediction(
    id: string,
    lat: real,
    lng: real,
    energyType: EnergyType,
    predictedKW: Tenths,
    confidence: Confidence,
    description: string,
    location: string,
    sampleSparkline: seq<Tenths>,
    createdBy: Option<string>
  )

  datatype Engineer = Engineer(
    id: string,
    name: string,
    skills: seq<string>,
    location: string,
    lat: real,
    lng: real,
    availability: Availability,
    contact: string,
    avatar: string,
    rating: Tenths
  )

  datatype Supplier = Supplier(
    id: string,
    name: string,
    materials: seq<string>,
    region: string,
    priceRange: string,
    contact: string,
    leadTime: string,
    rating: Tenths
  )

  const Pred1 := Prediction("pred-1", -1.286389, 36.817223, Solar, 38, High,
    "Urban rooftop solar installation in Nairobi", "Nairobi, Kenya", [25, 29, 32, 35, 38], None)
  const Pred2 := Prediction("pred-2", -0.4569, 39.6582, Solar, 65, High,
    "Large-scale solar farm in Garissa County", "Garissa, Kenya", [50, 55, 59, 62, 65], None)
  const Pred3 := Prediction("pred-3", 3.6, 36.05, Wind, 142, High,
    "Wind farm project at Lake Turkana", "Lake Turkana, Kenya", [110, 122, 131, 138, 142], None)
  const Pred4 := Prediction("pred-4", 3.3, 35.9, Geothermal, 185, High,
    "Geothermal energy in the Rift Valley", "Turkana Basin, Kenya", [150, 162, 171, 179, 185], None)
  const Pred5 := Prediction("pred-5", -1.8, 40.1, Hydro, 73, Medium,
    "Micro-hydro project on Tana River", "Tana River, Kenya", [58, 63, 67, 70, 73], None)
  const Pred6 := Prediction("pred-6", -4.0435, 39.6682, Wind, 52, Medium,
    "Coastal wind installation", "Mombasa, Kenya", [38, 42, 46, 49, 52], None)

  /** The seed opportunities, in catalog order. */
  const SamplePredictions: seq<Prediction> := [Pred1, Pred2, Pred3, Pred4, Pred5, Pred6]

  const Eng1 := Engineer("eng-1", "Wanjiku Kamau", ["Solar Installation", "PV Systems", "Grid Integration"],
    "Nairobi, Kenya", -1.286389, 36.817223, Available, "wanjiku.kamau@example.com", "\U{1F469}\U{200D}\U{1F527}", 49)
  const Eng2 := Engineer("eng-2", "Omondi Otieno", ["Wind Energy", "Turbine Installation", "Maintenance"],
    "Kisumu, Kenya", -0.0917, 34.7680, Available, "omondi.o@example.com", "\U{1F468}\U{200D}\U{1F527}", 48)
  const Eng3 := Engineer("eng-3", "Fatuma Hassan", ["Solar Design", "Energy Audits", "System Optimization"],
    "Mombasa, Kenya", -4.0435, 39.6682, Busy, "fatuma.h@example.com", "\U{1F469}\U{200D}\U{1F4BC}", 50)
  const Eng4 := Engineer("eng-4", "Kipchoge Rotich", ["Hydro Systems", "Civil Engineering", "Environmental Impact"],
    "Eldoret, Kenya", 0.5143, 35.2698, Available, "kipchoge.r@example.com", "\U{1F468}\U{200D}\U{1F4BB}", 47)
  const Eng5 := Engineer("eng-5", "Akinyi Odhiambo", ["Geothermal Systems", "Drilling", "Thermal Analysis"],
    "Nakuru, Kenya", -0.3031, 36.0800, Available, "akinyi.o@example.com", "\U{1F469}\U{200D}\U{1F52C}", 49)
  const Eng6 := Engineer("eng-6", "Mwangi Ndegwa", ["Wind Energy", "Project Management", "Solar Installation"],
    "Garissa, Kenya", -0.4569, 39.6582, Available, "mwangi.n@example.com", "\U{1F468}\U{200D}\U{1F3ED}", 48)

  /** The engineer catalog, in catalog order. */
  const SampleEngineers: seq<Engineer> := [Eng1, Eng2, Eng3, Eng4, Eng5, Eng6]

  const Sup1 := Supplier("sup-1", "East Africa Solar Ltd", ["Solar Panels", "Inverters", "Mounting Systems"],
    "East Africa", "$$$", "sales@easolar.co.ke", "2-3 weeks", 48)
  const Sup2 := Supplier("sup-2", "Kenya Wind Power Solutions", ["Turbine Blades", "Generators", "Control Systems"],
    "Kenya", "$$$$", "info@kenyawind.co.ke", "4-6 weeks", 47)
  const Sup3 := Supplier("sup-3", "Green Energy Africa", ["Solar Panels", "Batteries", "Wiring", "Monitoring Equipment"],
    "Pan-African", "$$", "orders@greenafrica.com", "1-2 weeks", 49)
  const Sup4 := Supplier("sup-4", "Tana Hydro Equipment", ["Turbines", "Piping", "Control Valves"],
    "Central Kenya", "$$$", "contact@tanahydro.co.ke", "3-4 weeks", 46)
  const Sup5 := Supplier("sup-5", "Kenya Renewable Parts Co", ["Solar Panels", "Inverters", "Batteries", "Accessories"],
    "Kenya", "$$", "support@kenyarenew.co.ke", "1 week", 48)
  const Sup6 := Supplier("sup-6", "GeoPower Rift Valley", ["Drilling Equipment", "Heat Exchangers", "Geothermal Pumps"],
    "Rift Valley", "$$$$", "sales@georiftvalley.co.ke", "6-8 weeks", 49)

  /** The supplier catalog, in catalog order. */
  const SampleSuppliers: seq<Supplier> := [Sup1, Sup2, Sup3, Sup4, Sup5, Sup6]
}
