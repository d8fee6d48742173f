/**
 * `Plant`: a potted plant, its species profile of optimal ranges, and the
 * plant-specific checks against those ranges.
 */
module Plants {
  import opened Nullable
  import opened SensorReadings

  const SpeciesChlorophytum: string := "Chlorophytum comosum"
  const SpeciesCactus: string := "Cactaceae"
  const SpeciesSucculent: string := "Echeveria elegans"

  datatype Plant = Plant(
    id: int,
    userId: int,
    name: Option<string>,
    plantType: Option<string>,
    species: Option<string>,
    scientificName: Option<string>,
    imageUrl: Option<string>,
    /** The `isConnected` field; `IsConnected` below does not read it. */
    connectedFlag: bool,
    deviceId: Option<string>,
    soilHumidityMin: real,
    soilHumidityMax: real,
    tempMin: real,
    tempMax: real,
    ambientHumidityMin: real,
    ambientHumidityMax: real,
    lightLevel: Option<string>,
    createdAt: Option<string>,
    updatedAt: Option<string>)

  /** `new Plant()`: every reference null, every number zero, not connected. */
  const EmptyPlant: Plant :=
    Plant(0, 0, None, None, None, None, None, false, None,
          0.0, 0.0, 0.0, 0.0, 0.0, 0.0, None, None, None)

  /** The optimal parameters one branch of `setOptimalParametersBySpecies` writes. */
  datatype Profile = Profile(
    soilMin: real, soilMax: real,
    tempMin: real, tempMax: real,
    ambientMin: real, ambientMax: real,
    light: string,
    connected: bool)

  /** The profile of the null branch and of the default branch. */
  const DefaultProfile: Profile := Profile(30.0, 60.0, 18.0, 28.0, 40.0, 60.0, "Luz Indirecta", false)

  predicate IsKnownSpecies(species: Option<string>) {
    species == Some(SpeciesChlorophytum) || species == Some(SpeciesCactus)
    || species == Some(SpeciesSucculent)
  }

  function ProfileFor(species: Option<string>): Profile {
    if species == Some(SpeciesChlorophytum) then
      Profile(30.0, 60.0, 18.0, 26.0, 40.0, 60.0, "Luz Brillante Indirecta", true)
    else if species == Some(SpeciesCactus) then
      Profile(10.0, 30.0, 20.0, 35.0, 30.0, 50.0, "Luz Directa", false)
    else if species == Some(SpeciesSucculent) then
      Profile(20.0, 40.0, 18.0, 28.0, 30.0, 50.0, "Luz Brillante Indirecta", false)
    else
      DefaultProfile
  }

  /** The plant's optimal parameters and connection flag are those of `prof`. */
  predicate HasProfile(p: Plant, prof: Profile) {
    && p.soilHumidityMin == prof.soilMin && p.soilHumidityMax == prof.soilMax
    && p.tempMin == prof.tempMin && p.tempMax == prof.tempMax
    && p.ambientHumidityMin == prof.ambientMin && p.ambientHumidityMax == prof.ambientMax
    && p.lightLevel == Some(prof.light)
    && p.connectedFlag == prof.connected
  }

  /** Every optimal range is a proper interval: min < max. */
  predicate RangesWellFormed(p: Plant) {
    && p.soilHumidityMin < p.soilHumidityMax
    && p.tempMin < p.tempMax
    && p.ambientHumidityMin < p.ambientHumidityMax
  }

  /** The same plant with optimal parameters, light, flag and scientific name taken from `q`. */
  function WithParametersOf(p: Plant, q: Plant): Plant {
    p.(soilHumidityMin := q.soilHumidityMin, soilHumidityMax := q.soilHumidityMax,
       tempMin := q.tempMin, tempMax := q.tempMax,
       ambientHumidityMin := q.ambientHumidityMin, ambientHumidityMax := q.ambientHumidityMax,
       lightLevel := q.lightLevel, connectedFlag := q.connectedFlag,
       scientificName := q.scientificName)
  }

  /**
   * `setOptimalParametersBySpecies(species)`: a null or unrecognised species
   * gets the default profile; the three known species also set the
   * scientific name (to the species string itself).
   */
  function SetOptimalParametersBySpecies(p: Plant, species: Option<string>): (r: Plant)
    ensures WithParametersOf(r, p) == p
    ensures RangesWellFormed(r)
    ensures r.connectedFlag <==> species == Some(SpeciesChlorophytum)
    ensures IsKnownSpecies(species) ==> r.scientificName == species
    ensures !IsKnownSpecies(species) ==> r.scientificName == p.scientificName && HasProfile(r, DefaultProfile)
    ensures HasProfile(r, ProfileFor(species))
  {
    var prof := ProfileFor(species);
    var r := p.(soilHumidityMin := prof.soilMin, soilHumidityMax := prof.soilMax,
                tempMin := prof.tempMin, tempMax := prof.tempMax,
                ambientHumidityMin := prof.ambientMin, ambientHumidityMax := prof.ambientMax,
                lightLevel := Some(prof.light), connectedFlag := prof.connected);
    if IsKnownSpecies(species) then r.(scientificName := species) else r
  }

  /** The constructor `Plant(name, type, species)`. */
  function NewPlant(name: Option<string>, plantType: Option<string>, species: Option<string>): (r: Plant)
    ensures r.name == name && r.plantType == plantType && r.species == species
    ensures RangesWellFormed(r) && HasProfile(r, ProfileFor(species))
    ensures r.deviceId.None? && r.id == 0
  {
    SetOptimalParametersBySpecies(EmptyPlant.(name := name, plantType := plantType, species := species), species)
  }

  /** `setSpecies(species)`: stores the species and re-derives the optimal parameters. */
  function SetSpecies(p: Plant, species: Option<string>): (r: Plant)
    ensures r.species == species
    ensures HasProfile(r, ProfileFor(species)) && RangesWellFormed(r)
    ensures WithParametersOf(r, p).(species := p.species) == p
    ensures IsKnownSpecies(species) ==> r.scientificName == species
    ensures !IsKnownSpecies(species) ==> r.scientificName == p.scientificName
  {
    SetOptimalParametersBySpecies(p.(species := species), species)
  }

  /**
   * Optima, light level and connection flag set by hand before `setSpecies`
   * do not survive it: two plants that differ only there agree afterwards.
   */
  lemma SetSpeciesForgetsEarlierOptima(p: Plant, q: Plant, species: Option<string>)
    requires WithParametersOf(p, q) == q && p.scientificName == q.scientificName
    ensures SetSpecies(p, species) == SetSpecies(q, species)
  {
  }

  function IsSoilHumidityOptimal(p: Plant, v: real): bool {
    p.soilHumidityMin <= v <= p.soilHumidityMax
  }

  function IsTemperatureOptimal(p: Plant, v: real): bool {
    p.tempMin <= v <= p.tempMax
  }

  function IsAmbientHumidityOptimal(p: Plant, v: real): bool {
    p.ambientHumidityMin <= v <= p.ambientHumidityMax
  }

  /**
   * `getSoilHumidityStatus(v)`: first match of <15, <min, >70, >max. A value
   * below the plant minimum is LOW even when it is above 70.
   */
  function SoilHumidityStatus(p: Plant, v: real): (s: Status)
    ensures s in {CriticalLow, Low, CriticalHigh, High, Optimal}
    ensures s == CriticalLow <==> v < 15.0
    ensures s == Low <==> 15.0 <= v < p.soilHumidityMin
    ensures s == CriticalHigh <==> v >= 15.0 && v >= p.soilHumidityMin && v > 70.0
    ensures s == High <==> v >= 15.0 && v >= p.soilHumidityMin && v <= 70.0 && v > p.soilHumidityMax
    ensures s == Optimal <==> 15.0 <= v <= 70.0 && IsSoilHumidityOptimal(p, v)
  {
    if v < 15.0 then CriticalLow
    else if v < p.soilHumidityMin then Low
    else if v > 70.0 then CriticalHigh
    else if v > p.soilHumidityMax then High
    else Optimal
  }

  /**
   * Inside the fixed band [15, 70] the soil status is OPTIMAL exactly when
   * the inclusive range test holds.
   */
  lemma SoilStatusAgreesWithRangeTest(p: Plant, v: real)
    requires 15.0 <= v <= 70.0
    ensures SoilHumidityStatus(p, v) == Optimal <==> IsSoilHumidityOptimal(p, v)
  {
  }

  /**
   * The cactus profile's optimal soil range starts at 10, below the critical
   * bound 15: a cactus at 12 % is "optimal" by the range test and
   * CRITICAL_LOW by the status chain.
   */
  lemma CactusOptimalYetCritical()
    ensures var cactus := NewPlant(None, None, Some(SpeciesCactus));
      IsSoilHumidityOptimal(cactus, 12.0) && SoilHumidityStatus(cactus, 12.0) == CriticalLow
  {
  }

  /**
   * With the default soil range 30-60 the plant's soil status is the fixed
   * classifier of `SensorData`.
   */
  lemma DefaultSoilStatusIsSensorDataStatus(p: Plant, v: real)
    requires p.soilHumidityMin == 30.0 && p.soilHumidityMax == 60.0
    ensures SoilHumidityStatus(p, v) == SoilStatus(v)
  {
  }

  /** `isConnected()`: a non-null, non-empty device id; the stored flag is not read. */
  predicate IsConnected(p: Plant) {
    p.deviceId.Some? && |p.deviceId.value| > 0
  }

  /** `setConnected(b)`: writes the flag, which `isConnected()` ignores. */
  function SetConnected(p: Plant, b: bool): (r: Plant)
    ensures IsConnected(r) == IsConnected(p)
    ensures r.connectedFlag == b && r.(connectedFlag := p.connectedFlag) == p
  {
    p.(connectedFlag := b)
  }

  /** `setDeviceId(id)`: stores the id and brings the flag in line with it. */
  function SetDeviceId(p: Plant, deviceId: Option<string>): (r: Plant)
    ensures r.deviceId == deviceId
    ensures IsConnected(r) <==> deviceId.Some? && deviceId.value != ""
    ensures r.connectedFlag == IsConnected(r)
  {
    p.(deviceId := deviceId, connectedFlag := deviceId.Some? && |deviceId.value| > 0)
  }
}
