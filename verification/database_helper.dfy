/**
 * `DatabaseHelper`: the app's SQLite store as four tables: users, plants,
 * sensor_data and alerts. Each table is a sequence of rows in rowid order.
 * Each also has the AUTOINCREMENT counter SQLite keeps for it (the largest
 * id ever handed out). The clock is a parameter: `now` where `DatabaseHelper`
 * reads it once, a `Clock` where it reads it twice.
 *
 * `insert` reports a constraint violation by returning -1 and leaving the
 * table as it was. `update` reports one by throwing, modelled here as
 * `Failed`. Foreign keys are not enforced, because SQLite on Android leaves
 * them off unless asked.
 */
module DatabaseHelper {
  import opened Nullable
  import opened Numbers
  import opened Text
  import opened Seqs
  import opened SensorReadings
  import opened Plants
  import opened Alerts
  import opened AlertOrder
  import opened Users

  /** A users row; name, email and password are NOT NULL. */
  datatype UserRow = UserRow(
    id: int,
    name: string,
    email: string,
    password: string,
    profileImage: Option<string>,
    googleId: Option<string>,
    createdAt: Option<string>,
    updatedAt: Option<string>)

  /** A plants row; plant_name is NOT NULL and there is no device id column. */
  datatype PlantRow = PlantRow(
    id: int,
    userId: int,
    name: string,
    plantType: Option<string>,
    species: Option<string>,
    scientificName: Option<string>,
    imageUrl: Option<string>,
    isConnected: int,
    soilHumidityMin: real,
    soilHumidityMax: real,
    tempMin: real,
    tempMax: real,
    ambientHumidityMin: real,
    ambientHumidityMax: real,
    lightLevel: Option<string>,
    createdAt: Option<string>,
    updatedAt: Option<string>)

  /** A sensor_data row: the six readings and the timestamp text, no statuses. */
  datatype SensorRow = SensorRow(id: int, plantId: int, reading: Reading, timestamp: string)

  /** The alerts table stores every field of `Alert`, `id` being the rowid. */
  datatype Db = Db(
    users: seq<UserRow>,
    plants: seq<PlantRow>,
    sensorData: seq<SensorRow>,
    alerts: seq<Alert>,
    userSeq: nat,
    plantSeq: nat,
    sensorSeq: nat,
    alertSeq: nat)

  /** The database right after `onCreate`. */
  const EmptyDb: Db := Db([], [], [], [], 0, 0, 0, 0)

  /** Ids are positive, increase along each table, and never pass the counter. */
  predicate UserIdsOk(db: Db) {
    && (forall i | 0 <= i < |db.users| :: 0 < db.users[i].id <= db.userSeq)
    && (forall i, j | 0 <= i < j < |db.users| :: db.users[i].id < db.users[j].id)
  }

  predicate PlantIdsOk(db: Db) {
    && (forall i | 0 <= i < |db.plants| :: 0 < db.plants[i].id <= db.plantSeq)
    && (forall i, j | 0 <= i < j < |db.plants| :: db.plants[i].id < db.plants[j].id)
  }

  predicate SensorIdsOk(db: Db) {
    && (forall i | 0 <= i < |db.sensorData| :: 0 < db.sensorData[i].id <= db.sensorSeq)
    && (forall i, j | 0 <= i < j < |db.sensorData| :: db.sensorData[i].id < db.sensorData[j].id)
  }

  predicate AlertIdsOk(db: Db) {
    && (forall i | 0 <= i < |db.alerts| :: 0 < db.alerts[i].id <= db.alertSeq)
    && (forall i, j | 0 <= i < j < |db.alerts| :: db.alerts[i].id < db.alerts[j].id)
  }

  /** The UNIQUE constraint on users.email. */
  predicate EmailsUnique(db: Db) {
    forall i, j | 0 <= i < j < |db.users| :: db.users[i].email != db.users[j].email
  }

  /** The state invariant: primary keys and the unique email. */
  predicate Valid(db: Db) {
    UserIdsOk(db) && PlantIdsOk(db) && SensorIdsOk(db) && AlertIdsOk(db) && EmailsUnique(db)
  }

  /** The result of `insert`: the new state and the new rowid, or -1. */
  datatype Inserted = Inserted(db: Db, id: int)

  /** The result of `update`: the new state and the rows affected, or a thrown constraint error. */
  datatype Updated = Updated(db: Db, rows: int) | Failed

  /** The text SQLite stores when a Java `long` goes into a TEXT column. */
  function TimeText(now: Long): (t: Option<string>)
    ensures t == Some(DecimalString(now)) && ParseLong(t.value) == Some(now)
  {
    ParseLongOfDecimalString(now);
    Some(DecimalString(now))
  }

  // ---------------------------------------------------------------- users

  predicate EmailTaken(db: Db, email: string) {
    exists i | 0 <= i < |db.users| :: db.users[i].email == email
  }

  /**
   * `createUser`: -1 and no change when name, email or password is `null`
   * or the email is already stored; otherwise a new row with the next id.
   */
  function CreateUser(db: Db, u: User, clock: Clock): (r: Inserted)
    ensures r.id == -1 <==> u.name.None? || u.email.None? || u.password.None? || EmailTaken(db, u.email.value)
    ensures r.id == -1 ==> r.db == db
    ensures r.id != -1 ==>
      && r.id == db.userSeq + 1
      && r.db.users == db.users + [UserRow(r.id, u.name.value, u.email.value, u.password.value,
                                           u.profileImage, u.googleId, TimeText(clock(0)), TimeText(clock(1)))]
      && r.db == db.(users := r.db.users, userSeq := r.id)
    ensures Valid(db) ==> Valid(r.db)
  {
    if u.name.None? || u.email.None? || u.password.None? || EmailTaken(db, u.email.value) then
      Inserted(db, -1)
    else
      var id := db.userSeq + 1;
      var row := UserRow(id, u.name.value, u.email.value, u.password.value,
                         u.profileImage, u.googleId, TimeText(clock(0)), TimeText(clock(1)));
      Inserted(db.(users := db.users + [row], userSeq := id), id)
  }

  /** The columns `getUserByEmail` reads back. */
  function UserOfRow(row: UserRow): (u: User)
    ensures u.id == row.id && u.email == Some(row.email)
  {
    User(row.id, Some(row.name), Some(row.email), Some(row.password), row.profileImage, row.googleId, None, None)
  }

  /**
   * `getUserByEmail`: the user stored with exactly that email, or `null`.
   * Timestamps are not read back.
   */
  function GetUserByEmail(db: Db, email: string): (u: Option<User>)
    ensures u.None? <==> !EmailTaken(db, email)
    ensures u.Some? ==> exists i | 0 <= i < |db.users| :: db.users[i].email == email && u.value == UserOfRow(db.users[i])
  {
    var i := FirstIndex(db.users, (row: UserRow) => row.email == email);
    if i == -1 then None else Some(UserOfRow(db.users[i]))
  }

  /** `emailExists`: the query for that email returns at least one row. */
  function EmailExists(db: Db, email: string): (b: bool)
    ensures b <==> GetUserByEmail(db, email).Some?
  {
    CountPositiveIffSome(db.users, (row: UserRow) => row.email == email);
    CountWhere(db.users, (row: UserRow) => row.email == email) > 0
  }

  /**
   * A user just created is found by its email with everything it was
   * created with, and creating a second user with that email fails.
   */
  lemma CreatedUserIsFound(db: Db, u: User, other: User, clock: Clock, later: Clock)
    requires Valid(db)
    requires CreateUser(db, u, clock).id != -1
    ensures var r := CreateUser(db, u, clock);
      GetUserByEmail(r.db, u.email.value) ==
        Some(User(r.id, u.name, u.email, u.password, u.profileImage, u.googleId, None, None))
    ensures var r := CreateUser(db, u, clock);
      other.email == u.email ==> CreateUser(r.db, other, later).id == -1
  {
    var r := CreateUser(db, u, clock);
    var row := UserRow(r.id, u.name.value, u.email.value, u.password.value,
                       u.profileImage, u.googleId, TimeText(clock(0)), TimeText(clock(1)));
    assert r.db.users == db.users + [row];
    GetUserAfterAppend(db, r.db, row);
    assert UserOfRow(row) == User(r.id, u.name, u.email, u.password, u.profileImage, u.googleId, None, None);
  }

  /** A row appended with a fresh email is the one that email finds. */
  lemma GetUserAfterAppend(db: Db, d: Db, row: UserRow)
    requires d.users == db.users + [row]
    requires !EmailTaken(db, row.email)
    ensures GetUserByEmail(d, row.email) == Some(UserOfRow(row))
    ensures EmailTaken(d, row.email)
  {
    var e := row.email;
    var n := |db.users|;
    assert d.users[n] == row;
    var k := FirstIndex(d.users, (r: UserRow) => r.email == e);
    assert k == n by {
      forall j | 0 <= j < n ensures d.users[j].email != e {
        assert d.users[j] == db.users[j];
      }
    }
  }

  /**
   * `updateUser`: writes name, email, profile image and the update time on
   * the row with the user's id. It writes the password only when it is not
   * `null`, and it never writes the Google id. A `null` name or email, or
   * an email another row already has, throws.
   */
  function UpdateUser(db: Db, u: User, now: Long): (r: Updated)
    ensures var matches := CountWhere(db.users, (row: UserRow) => row.id == u.id);
      r.Failed? <==> (matches > 0 &&
        (u.name.None? || u.email.None? ||
         exists i | 0 <= i < |db.users| :: db.users[i].id != u.id && db.users[i].email == u.email.value))
    ensures r.Updated? ==> r.rows == CountWhere(db.users, (row: UserRow) => row.id == u.id)
    ensures r.Updated? ==> |r.db.users| == |db.users| && r.db == db.(users := r.db.users)
    ensures r.Updated? ==> forall i | 0 <= i < |db.users| ::
      var old_ := db.users[i];
      var new_ := r.db.users[i];
      && new_.id == old_.id && new_.googleId == old_.googleId && new_.createdAt == old_.createdAt
      && (old_.id != u.id ==> new_ == old_)
      && (old_.id == u.id ==>
            && Some(new_.name) == u.name && Some(new_.email) == u.email
            && new_.profileImage == u.profileImage && new_.updatedAt == TimeText(now)
            && new_.password == u.password.GetOr(old_.password))
    ensures Valid(db) && r.Updated? ==> Valid(r.db)
  {
    var matches := CountWhere(db.users, (row: UserRow) => row.id == u.id);
    CountPositiveIffSome(db.users, (row: UserRow) => row.id == u.id);
    if matches == 0 then Updated(db, 0)
    else if u.name.None? || u.email.None? ||
            exists i | 0 <= i < |db.users| :: db.users[i].id != u.id && db.users[i].email == u.email.value then
      Failed
    else
      var d := db.(users := Map(db.users, (row: UserRow) => UserUpdate(row, u, now)));
      assert Valid(db) ==> Valid(d) by {
        if Valid(db) {
          UpdateUserKeepsValid(db, u, now);
        }
      }
      Updated(d, matches)
  }

  /** What `updateUser` writes on one row: the row with the user's id is rewritten. */
  function UserUpdate(row: UserRow, u: User, now: Long): UserRow
    requires u.name.Some? && u.email.Some?
  {
    if row.id != u.id then row
    else row.(name := u.name.value, email := u.email.value,
              password := u.password.GetOr(row.password),
              profileImage := u.profileImage, updatedAt := TimeText(now))
  }

  /** An update that clashes with no other row's email keeps ids and emails unique. */
  lemma UpdateUserKeepsValid(db: Db, u: User, now: Long)
    requires Valid(db) && u.name.Some? && u.email.Some?
    requires forall i | 0 <= i < |db.users| :: db.users[i].id != u.id ==> db.users[i].email != u.email.value
    ensures Valid(db.(users := Map(db.users, (row: UserRow) => UserUpdate(row, u, now))))
  {
    var users := Map(db.users, (row: UserRow) => UserUpdate(row, u, now));
    assert forall i | 0 <= i < |users| :: users[i].id == db.users[i].id;
    forall i, j | 0 <= i < j < |users| ensures users[i].email != users[j].email {
      assert db.users[i].id < db.users[j].id;
    }
  }

  /**
   * `updatePassword`: true exactly when a user has that email, and then
   * only that user's password and update time change.
   */
  function UpdatePassword(db: Db, email: string, hashedPassword: string, now: Long): (r: (Db, bool))
    ensures r.1 <==> EmailTaken(db, email)
    ensures |r.0.users| == |db.users| && r.0 == db.(users := r.0.users)
    ensures forall i | 0 <= i < |db.users| ::
      r.0.users[i] == if db.users[i].email == email
        then db.users[i].(password := hashedPassword, updatedAt := TimeText(now))
        else db.users[i]
    ensures Valid(db) ==> Valid(r.0)
  {
    CountPositiveIffSome(db.users, (row: UserRow) => row.email == email);
    var users := Map(db.users, (row: UserRow) =>
      if row.email == email then row.(password := hashedPassword, updatedAt := TimeText(now)) else row);
    (db.(users := users), CountWhere(db.users, (row: UserRow) => row.email == email) > 0)
  }

  /** After a successful password update, logging in finds the new password. */
  lemma UpdatedPasswordIsRead(db: Db, email: string, hashedPassword: string, now: Long)
    requires EmailTaken(db, email)
    ensures var d := UpdatePassword(db, email, hashedPassword, now).0;
      GetUserByEmail(d, email).Some? && GetUserByEmail(d, email).value.password == Some(hashedPassword)
  {
    var d := UpdatePassword(db, email, hashedPassword, now).0;
    var i :| 0 <= i < |db.users| && db.users[i].email == email;
    assert d.users[i].email == email;
  }

  // --------------------------------------------------------------- plants

  /**
   * `createPlant`: -1 and no change for a `null` name; otherwise a new row
   * with the next id. The row stores `isConnected()`, which is derived from
   * the device id, rather than the plant's connection flag.
   */
  function CreatePlant(db: Db, p: Plant, clock: Clock): (r: Inserted)
    ensures r.id == -1 <==> p.name.None?
    ensures r.id == -1 ==> r.db == db
    ensures r.id != -1 ==>
      && r.id == db.plantSeq + 1
      && r.db == db.(plants := db.plants + [RowOfPlant(p, r.id, clock)], plantSeq := r.id)
    ensures Valid(db) ==> Valid(r.db)
  {
    if p.name.None? then Inserted(db, -1)
    else
      var id := db.plantSeq + 1;
      Inserted(db.(plants := db.plants + [RowOfPlant(p, id, clock)], plantSeq := id), id)
  }

  /** The values `createPlant` puts in a new row. */
  function RowOfPlant(p: Plant, id: int, clock: Clock): (row: PlantRow)
    requires p.name.Some?
    ensures row.id == id && row.userId == p.userId && Some(row.name) == p.name
    ensures row.createdAt == Some(DecimalString(clock(0))) && row.updatedAt == Some(DecimalString(clock(1)))
    ensures row.isConnected == 1 <==> IsConnected(p)
    ensures row.isConnected == 0 || row.isConnected == 1
  {
    PlantRow(id, p.userId, p.name.value, p.plantType, p.species, p.scientificName, p.imageUrl,
             if IsConnected(p) then 1 else 0,
             p.soilHumidityMin, p.soilHumidityMax, p.tempMin, p.tempMax,
             p.ambientHumidityMin, p.ambientHumidityMax, p.lightLevel,
             TimeText(clock(0)), TimeText(clock(1)))
  }

  /**
   * How `getUserPlants` and `getPlantById` rebuild a plant: `setSpecies`
   * re-derives the optima from the species profile, then the stored
   * scientific name, image and connection flag are set. No device id is
   * read, so `isConnected()` is false.
   */
  function PlantBySpecies(row: PlantRow): (p: Plant)
    ensures p.id == row.id && p.userId == row.userId && p.name == Some(row.name)
    ensures p.plantType == row.plantType && p.species == row.species
    ensures p.scientificName == row.scientificName && p.imageUrl == row.imageUrl
    ensures p.connectedFlag <==> row.isConnected == 1
    ensures !IsConnected(p)
    ensures HasProfile(p.(connectedFlag := ProfileFor(row.species).connected), ProfileFor(row.species))
  {
    var p0 := EmptyPlant.(id := row.id, userId := row.userId, name := Some(row.name), plantType := row.plantType);
    var p1 := SetSpecies(p0, row.species);
    var p2 := p1.(scientificName := row.scientificName, imageUrl := row.imageUrl);
    SetConnected(p2, row.isConnected == 1)
  }

  /**
   * How `getConnectedPlants` rebuilds a plant (`cursorToPlant`): as above,
   * then the stored optima, light level and timestamps overwrite the
   * species profile.
   */
  function PlantWithStoredOptima(row: PlantRow): (p: Plant)
    ensures p.id == row.id && p.name == Some(row.name) && p.species == row.species
    ensures p.connectedFlag <==> row.isConnected == 1
    ensures !IsConnected(p)
    ensures p.soilHumidityMin == row.soilHumidityMin && p.soilHumidityMax == row.soilHumidityMax
    ensures p.tempMin == row.tempMin && p.tempMax == row.tempMax
    ensures p.ambientHumidityMin == row.ambientHumidityMin && p.ambientHumidityMax == row.ambientHumidityMax
    ensures p.lightLevel == row.lightLevel
    ensures p.createdAt == row.createdAt && p.updatedAt == row.updatedAt
  {
    PlantBySpecies(row).(
      soilHumidityMin := row.soilHumidityMin, soilHumidityMax := row.soilHumidityMax,
      tempMin := row.tempMin, tempMax := row.tempMax,
      ambientHumidityMin := row.ambientHumidityMin, ambientHumidityMax := row.ambientHumidityMax,
      lightLevel := row.lightLevel, createdAt := row.createdAt, updatedAt := row.updatedAt)
  }

  /**
   * `getUserPlants`: the user's plants in rowid order (the query has no
   * ORDER BY), each rebuilt through `setSpecies`.
   */
  function GetUserPlants(db: Db, userId: int): (plants: seq<Plant>)
    ensures |plants| == |Filter(db.plants, (row: PlantRow) => row.userId == userId)|
    ensures forall i | 0 <= i < |plants| :: plants[i].userId == userId && !IsConnected(plants[i])
    ensures forall i | 0 <= i < |plants| ::
      exists k | 0 <= k < |db.plants| :: db.plants[k].userId == userId && plants[i] == PlantBySpecies(db.plants[k])
    ensures forall k | 0 <= k < |db.plants| && db.plants[k].userId == userId :: PlantBySpecies(db.plants[k]) in plants
    ensures PlantIdsOk(db) ==> forall i, j | 0 <= i < j < |plants| :: plants[i].id < plants[j].id
  {
    UserPlantsContents(db, userId);
    Map(Filter(db.plants, (row: PlantRow) => row.userId == userId), PlantBySpecies)
  }

  /** The user's rows rebuilt by species: which plants, and in which order. */
  lemma UserPlantsContents(db: Db, userId: int)
    ensures var plants := Map(Filter(db.plants, (row: PlantRow) => row.userId == userId), PlantBySpecies);
      && (forall i | 0 <= i < |plants| ::
            exists k | 0 <= k < |db.plants| :: db.plants[k].userId == userId && plants[i] == PlantBySpecies(db.plants[k]))
      && (forall k | 0 <= k < |db.plants| && db.plants[k].userId == userId :: PlantBySpecies(db.plants[k]) in plants)
      && (PlantIdsOk(db) ==> forall i, j | 0 <= i < j < |plants| :: plants[i].id < plants[j].id)
  {
    MapFilterContents(db.plants, (row: PlantRow) => row.userId == userId, PlantBySpecies);
    RebuiltInRowOrder(db, (row: PlantRow) => row.userId == userId, PlantBySpecies);
  }

  /** Plants rebuilt from a filtered run of rows keep the rows' id order. */
  lemma RebuiltInRowOrder(db: Db, keep: PlantRow -> bool, rebuild: PlantRow -> Plant)
    requires forall row :: rebuild(row).id == row.id
    ensures PlantIdsOk(db) ==> var plants := Map(Filter(db.plants, keep), rebuild);
      forall i, j | 0 <= i < j < |plants| :: plants[i].id < plants[j].id
  {
    if PlantIdsOk(db) {
      SubsequenceKeepsIncreasing(Filter(db.plants, keep), db.plants, (row: PlantRow) => row.id);
    }
  }

  /** `getPlantsCountByUserId`: `COUNT(*)` over the same rows. */
  function GetPlantsCountByUserId(db: Db, userId: int): (n: nat)
    ensures n <= |db.plants|
  {
    CountWhere(db.plants, (row: PlantRow) => row.userId == userId)
  }

  /** `getPlantsByUserId`: an alias of `getUserPlants`. */
  function GetPlantsByUserId(db: Db, userId: int): seq<Plant> {
    GetUserPlants(db, userId)
  }

  /** The count agrees with the list, whichever of the two list queries is used. */
  lemma PlantsCountMatchesList(db: Db, userId: int)
    ensures GetPlantsCountByUserId(db, userId) == |GetUserPlants(db, userId)|
    ensures GetPlantsByUserId(db, userId) == GetUserPlants(db, userId)
  {
    CountIsFilterLength(db.plants, (row: PlantRow) => row.userId == userId);
  }

  /** `getPlantById`: the plant with that id rebuilt through `setSpecies`, or `null`. */
  function GetPlantById(db: Db, plantId: int): (p: Option<Plant>)
    ensures p.None? <==> forall i | 0 <= i < |db.plants| :: db.plants[i].id != plantId
    ensures p.Some? ==> p.value.id == plantId && !IsConnected(p.value)
    ensures p.Some? ==> exists i | 0 <= i < |db.plants| :: p.value == PlantBySpecies(db.plants[i])
  {
    var i := FirstIndex(db.plants, (row: PlantRow) => row.id == plantId);
    if i == -1 then None else Some(PlantBySpecies(db.plants[i]))
  }

  /**
   * What a round trip through the plants table keeps and loses. The
   * identity and texts come back. The optima become those of the species
   * profile. The connection flag becomes the old `isConnected()`. The device
   * id is lost, so the plant read back is never connected.
   */
  lemma PlantRoundTrip(db: Db, p: Plant, clock: Clock)
    requires Valid(db) && p.name.Some?
    ensures var r := CreatePlant(db, p, clock);
      var q := GetPlantById(r.db, r.id);
      && q.Some?
      && q.value.userId == p.userId && q.value.name == p.name && q.value.plantType == p.plantType
      && q.value.species == p.species && q.value.scientificName == p.scientificName
      && q.value.imageUrl == p.imageUrl
      && q.value.connectedFlag == IsConnected(p)
      && q.value.deviceId.None? && !IsConnected(q.value)
      && q.value.soilHumidityMin == ProfileFor(p.species).soilMin
      && q.value.tempMax == ProfileFor(p.species).tempMax
  {
    var r := CreatePlant(db, p, clock);
    var k := FirstIndex(r.db.plants, (row: PlantRow) => row.id == r.id);
    assert r.db.plants[|db.plants|].id == r.id;
    assert forall i | 0 <= i < |db.plants| :: r.db.plants[i] == db.plants[i];
    assert k == |db.plants|;
  }

  /**
   * A stored connection flag does not survive either way of reading: a
   * plant stored as connected is read back connected-flagged yet with
   * `isConnected()` false.
   */
  lemma ConnectedRowsReadDisconnected(db: Db, plantId: int)
    requires GetPlantById(db, plantId).Some?
    ensures !IsConnected(GetPlantById(db, plantId).value)
    ensures forall q | q in GetConnectedPlants(db) :: q.connectedFlag && !IsConnected(q)
  {
  }

  /**
   * `updatePlant`: writes name, type, species, scientific name, image,
   * `isConnected()` and the update time on the row with the plant's id,
   * but not the optima. A `null` name throws.
   */
  function UpdatePlant(db: Db, p: Plant, now: Long): (r: Updated)
    ensures var matches := CountWhere(db.plants, (row: PlantRow) => row.id == p.id);
      r.Failed? <==> matches > 0 && p.name.None?
    ensures r.Updated? ==> r.rows == CountWhere(db.plants, (row: PlantRow) => row.id == p.id)
    ensures r.Updated? ==> |r.db.plants| == |db.plants| && r.db == db.(plants := r.db.plants)
    ensures r.Updated? ==> forall i | 0 <= i < |db.plants| ::
      var old_ := db.plants[i];
      var new_ := r.db.plants[i];
      && (old_.id != p.id ==> new_ == old_)
      && (old_.id == p.id ==>
            && new_.id == old_.id && new_.userId == old_.userId
            && Some(new_.name) == p.name && new_.plantType == p.plantType && new_.species == p.species
            && new_.scientificName == p.scientificName && new_.imageUrl == p.imageUrl
            && (new_.isConnected == 1 <==> IsConnected(p)) && (new_.isConnected == 0 || new_.isConnected == 1)
            && new_.updatedAt == Some(DecimalString(now))
            && new_.soilHumidityMin == old_.soilHumidityMin && new_.soilHumidityMax == old_.soilHumidityMax
            && new_.tempMin == old_.tempMin && new_.tempMax == old_.tempMax
            && new_.ambientHumidityMin == old_.ambientHumidityMin
            && new_.ambientHumidityMax == old_.ambientHumidityMax
            && new_.lightLevel == old_.lightLevel && new_.createdAt == old_.createdAt)
    ensures Valid(db) && r.Updated? ==> Valid(r.db)
  {
    var matches := CountWhere(db.plants, (row: PlantRow) => row.id == p.id);
    CountPositiveIffSome(db.plants, (row: PlantRow) => row.id == p.id);
    if matches == 0 then Updated(db, 0)
    else if p.name.None? then Failed
    else
      var plants := Map(db.plants, (row: PlantRow) =>
        if row.id != p.id then row
        else row.(name := p.name.value, plantType := p.plantType, species := p.species,
                  scientificName := p.scientificName, imageUrl := p.imageUrl,
                  isConnected := if IsConnected(p) then 1 else 0, updatedAt := TimeText(now)));
      Updated(db.(plants := plants), matches)
  }

  /**
   * `deletePlant`: removes the plant's alerts, its sensor readings and the
   * plant itself; every other row stays, in order.
   */
  function DeletePlant(db: Db, plantId: int): (r: Db)
    ensures r.users == db.users
    ensures IsSubsequence(r.plants, db.plants) && IsSubsequence(r.alerts, db.alerts)
    ensures IsSubsequence(r.sensorData, db.sensorData)
    ensures forall i | 0 <= i < |r.plants| :: r.plants[i].id != plantId && r.plants[i] in db.plants
    ensures forall i | 0 <= i < |db.plants| && db.plants[i].id != plantId :: db.plants[i] in r.plants
    ensures forall i | 0 <= i < |r.alerts| :: r.alerts[i].plantId != plantId && r.alerts[i] in db.alerts
    ensures forall i | 0 <= i < |db.alerts| && db.alerts[i].plantId != plantId :: db.alerts[i] in r.alerts
    ensures forall i | 0 <= i < |r.sensorData| :: r.sensorData[i].plantId != plantId && r.sensorData[i] in db.sensorData
    ensures forall i | 0 <= i < |db.sensorData| && db.sensorData[i].plantId != plantId :: db.sensorData[i] in r.sensorData
    ensures r.userSeq == db.userSeq && r.plantSeq == db.plantSeq
    ensures r.sensorSeq == db.sensorSeq && r.alertSeq == db.alertSeq
    ensures Valid(db) ==> Valid(r)
  {
    var r := db.(alerts := Filter(db.alerts, (a: Alert) => a.plantId != plantId),
                 sensorData := Filter(db.sensorData, (s: SensorRow) => s.plantId != plantId),
                 plants := Filter(db.plants, (row: PlantRow) => row.id != plantId));
    assert Valid(db) ==> Valid(r) by {
      if Valid(db) {
        SubsequenceKeepsIncreasing(r.plants, db.plants, (row: PlantRow) => row.id);
        SubsequenceKeepsIncreasing(r.alerts, db.alerts, (a: Alert) => a.id);
        SubsequenceKeepsIncreasing(r.sensorData, db.sensorData, (s: SensorRow) => s.id);
      }
    }
    r
  }

  /** After deleting a plant it can no longer be read, nor can its latest reading. */
  lemma DeletedPlantIsGone(db: Db, plantId: int, now: Long)
    ensures GetPlantById(DeletePlant(db, plantId), plantId).None?
    ensures GetLatestSensorData(DeletePlant(db, plantId), plantId, now).None?
  {
  }

  // ----------------------------------------------------------- sensor data

  /** `insertSensorData`: a new row with the next id; nothing can make it fail. */
  function InsertSensorData(db: Db, d: SensorData): (r: Inserted)
    ensures r.id == db.sensorSeq + 1
    ensures r.db == db.(sensorData := db.sensorData + [SensorRow(r.id, d.plantId, d.reading, d.timestamp)],
                        sensorSeq := r.id)
    ensures Valid(db) ==> Valid(r.db)
  {
    var id := db.sensorSeq + 1;
    Inserted(db.(sensorData := db.sensorData + [SensorRow(id, d.plantId, d.reading, d.timestamp)],
                 sensorSeq := id), id)
  }

  /**
   * The plant's row with the greatest timestamp text; among equal
   * timestamps the first in rowid order.
   */
  function LatestRow(rows: seq<SensorRow>, plantId: int): (r: Option<SensorRow>)
    ensures r.None? <==> forall i | 0 <= i < |rows| :: rows[i].plantId != plantId
    ensures r.Some? ==> r.value in rows && r.value.plantId == plantId
    ensures r.Some? ==> forall i | 0 <= i < |rows| && rows[i].plantId == plantId ::
      !LexLess(r.value.timestamp, rows[i].timestamp)
    decreases |rows|
  {
    if |rows| == 0 then None
    else
      var rest := LatestRow(rows[1..], plantId);
      assert forall i | 1 <= i < |rows| :: rows[i] == rows[1..][i - 1];
      if rows[0].plantId != plantId then rest
      else if rest.None? then
        LexLessIrreflexive(rows[0].timestamp);
        Some(rows[0])
      else if !LexLess(rows[0].timestamp, rest.value.timestamp) then
        assert forall i | 1 <= i < |rows| && rows[i].plantId == plantId ::
          !LexLess(rows[0].timestamp, rows[i].timestamp) by {
          forall i | 1 <= i < |rows| && rows[i].plantId == plantId
            ensures !LexLess(rows[0].timestamp, rows[i].timestamp)
          {
            NotLessTransitive(rows[0].timestamp, rest.value.timestamp, rows[i].timestamp);
          }
        }
        LexLessIrreflexive(rows[0].timestamp);
        Some(rows[0])
      else
        LexLessAsymmetric(rows[0].timestamp, rest.value.timestamp);
        rest
  }

  /** How `getLatestSensorData` rebuilds a reading: `new SensorData()` and its setters. */
  function SensorDataOfRow(row: SensorRow, now: Long): (d: SensorData)
    ensures Consistent(d)
    ensures d.id == row.id && d.plantId == row.plantId
    ensures d.reading == row.reading && d.timestamp == row.timestamp
  {
    var d0 := NewSensorData(now).(id := row.id, plantId := row.plantId);
    var d1 := SetSoilHumidity(d0, row.reading.soilHumidity);
    var d2 := SetTemperature(d1, row.reading.temperature);
    var d3 := SetAmbientHumidity(d2, row.reading.ambientHumidity);
    var d4 := SetUvLevel(d3, row.reading.uvLevel);
    var d5 := SetWaterLevel(d4, row.reading.waterLevel);
    var d6 := SetPestCount(d5, row.reading.pestCount);
    d6.(timestamp := row.timestamp)
  }

  /**
   * `getLatestSensorData`: `ORDER BY timestamp DESC LIMIT 1` over the
   * plant's readings, compared as text; `null` for a plant without readings.
   */
  function GetLatestSensorData(db: Db, plantId: int, now: Long): (d: Option<SensorData>)
    ensures d.None? <==> forall i | 0 <= i < |db.sensorData| :: db.sensorData[i].plantId != plantId
    ensures d.Some? ==> Consistent(d.value) && d.value.plantId == plantId
    ensures d.Some? ==> exists i | 0 <= i < |db.sensorData| ::
      db.sensorData[i].id == d.value.id && db.sensorData[i].reading == d.value.reading
    ensures d.Some? ==> forall i | 0 <= i < |db.sensorData| && db.sensorData[i].plantId == plantId ::
      !LexLess(d.value.timestamp, db.sensorData[i].timestamp)
  {
    var row := LatestRow(db.sensorData, plantId);
    if row.None? then None else Some(SensorDataOfRow(row.value, now))
  }

  /**
   * A reading inserted with a timestamp text greater than every earlier
   * reading of its plant is the one read back as latest.
   */
  lemma NewestInsertIsLatest(db: Db, d: SensorData, now: Long)
    requires forall i | 0 <= i < |db.sensorData| && db.sensorData[i].plantId == d.plantId ::
      LexLess(db.sensorData[i].timestamp, d.timestamp)
    ensures var r := InsertSensorData(db, d);
      var latest := GetLatestSensorData(r.db, d.plantId, now);
      latest.Some? && latest.value.reading == d.reading && latest.value.id == r.id
  {
    var r := InsertSensorData(db, d);
    var rows := r.db.sensorData;
    var last := rows[|rows| - 1];
    assert last.plantId == d.plantId;
    assert forall i | 0 <= i < |db.sensorData| :: rows[i] == db.sensorData[i];
  }

  /**
   * Timestamps are compared as text, not as numbers: "999" sorts after
   * "1000", so a reading stamped with fewer digits would count as newer.
   * Millisecond times since 2001 all have thirteen digits.
   */
  lemma TextOrderIsNotTimeOrder()
    ensures LexLess(DecimalString(1000), DecimalString(999))
  {
    assert DecimalString(1000) == "1000" && DecimalString(999) == "999";
  }

  // ---------------------------------------------------------------- alerts

  /** `createAlert`: a new row with the next id holding every field of the alert. */
  function CreateAlert(db: Db, a: Alert): (r: Inserted)
    ensures r.id == db.alertSeq + 1
    ensures r.db == db.(alerts := db.alerts + [a.(id := r.id)], alertSeq := r.id)
    ensures Valid(db) ==> Valid(r.db)
  {
    var id := db.alertSeq + 1;
    Inserted(db.(alerts := db.alerts + [a.(id := id)], alertSeq := id), id)
  }

  /** `getAllAlerts`: every stored alert, newest timestamp first. */
  function GetAllAlerts(db: Db): (alerts: seq<Alert>)
    ensures NewestFirst(alerts)
    ensures multiset(alerts) == multiset(db.alerts)
  {
    SortNewestFirst(db.alerts)
  }

  /** `getUnreadAlerts`: the unread alerts, newest timestamp first. */
  function GetUnreadAlerts(db: Db): (alerts: seq<Alert>)
    ensures NewestFirst(alerts)
    ensures multiset(alerts) == multiset(Filter(db.alerts, (a: Alert) => !a.isRead))
    ensures forall a | a in alerts :: !a.isRead && a in db.alerts
  {
    var unread := Filter(db.alerts, (a: Alert) => !a.isRead);
    var sorted := SortNewestFirst(unread);
    assert forall a | a in sorted :: a in unread by {
      forall a | a in sorted ensures a in unread {
        assert a in multiset(sorted);
      }
    }
    sorted
  }

  /** `getUnreadAlertsCount`: `COUNT(*) WHERE is_read = 0`. */
  function GetUnreadAlertsCount(db: Db): (n: nat)
    ensures n == |GetUnreadAlerts(db)|
  {
    CountIsFilterLength(db.alerts, (a: Alert) => !a.isRead);
    CountWhere(db.alerts, (a: Alert) => !a.isRead)
  }

  /** `markAlertAsRead`: sets `is_read` on the alert with that id and on no other row. */
  function MarkAlertAsRead(db: Db, alertId: int): (r: Db)
    ensures |r.alerts| == |db.alerts| && r == db.(alerts := r.alerts)
    ensures forall i | 0 <= i < |db.alerts| ::
      r.alerts[i] == if db.alerts[i].id == alertId then db.alerts[i].(isRead := true) else db.alerts[i]
    ensures Valid(db) ==> Valid(r)
  {
    db.(alerts := Map(db.alerts, (a: Alert) => if a.id == alertId then a.(isRead := true) else a))
  }

  /** Marking an alert read twice is marking it once. */
  lemma MarkAlertAsReadIdempotent(db: Db, alertId: int)
    ensures MarkAlertAsRead(MarkAlertAsRead(db, alertId), alertId) == MarkAlertAsRead(db, alertId)
  {
    var once := MarkAlertAsRead(db, alertId);
    var twice := MarkAlertAsRead(once, alertId);
    assert twice.alerts == once.alerts;
  }

  /**
   * Marking never raises the unread count, and lowers it by exactly one when
   * the alert with that id was stored and unread (ids being unique).
   */
  lemma MarkAlertAsReadCount(db: Db, alertId: int)
    requires Valid(db)
    ensures GetUnreadAlertsCount(MarkAlertAsRead(db, alertId)) <= GetUnreadAlertsCount(db)
    ensures (exists i | 0 <= i < |db.alerts| :: db.alerts[i].id == alertId && !db.alerts[i].isRead) ==>
      GetUnreadAlertsCount(MarkAlertAsRead(db, alertId)) == GetUnreadAlertsCount(db) - 1
  {
    UnreadCountAfterMark(db.alerts, alertId);
  }

  /** The unread count after marking, computed over any run of alerts. */
  lemma {:induction false} UnreadCountAfterMark(alerts: seq<Alert>, alertId: int)
    requires forall i, j | 0 <= i < j < |alerts| :: alerts[i].id < alerts[j].id
    ensures var marked := Map(alerts, (a: Alert) => if a.id == alertId then a.(isRead := true) else a);
      var before := CountWhere(alerts, (a: Alert) => !a.isRead);
      var after := CountWhere(marked, (a: Alert) => !a.isRead);
      && after <= before
      && ((exists i | 0 <= i < |alerts| :: alerts[i].id == alertId && !alerts[i].isRead) ==> after == before - 1)
      && ((forall i | 0 <= i < |alerts| :: alerts[i].id != alertId || alerts[i].isRead) ==> after == before)
    decreases |alerts|
  {
    var marked := Map(alerts, (a: Alert) => if a.id == alertId then a.(isRead := true) else a);
    if |alerts| > 0 {
      var tail := alerts[1..];
      UnreadCountAfterMark(tail, alertId);
      var markedTail := Map(tail, (a: Alert) => if a.id == alertId then a.(isRead := true) else a);
      assert marked[1..] == markedTail;
      if alerts[0].id == alertId {
        assert forall i | 0 <= i < |tail| :: tail[i].id != alertId by {
          forall i | 0 <= i < |tail| ensures tail[i].id != alertId {
            assert tail[i] == alerts[i + 1];
          }
        }
      }
      if exists i | 0 <= i < |alerts| :: alerts[i].id == alertId && !alerts[i].isRead {
        var i :| 0 <= i < |alerts| && alerts[i].id == alertId && !alerts[i].isRead;
        if i > 0 {
          assert tail[i - 1] == alerts[i];
        }
      }
      if forall i | 0 <= i < |alerts| :: alerts[i].id != alertId || alerts[i].isRead {
        assert forall i | 0 <= i < |tail| :: tail[i].id != alertId || tail[i].isRead by {
          forall i | 0 <= i < |tail| ensures tail[i].id != alertId || tail[i].isRead {
            assert tail[i] == alerts[i + 1];
          }
        }
      }
    }
  }

  /**
   * `getConnectedPlants`: the rows stored with `is_connected = 1`, rebuilt
   * with their stored optima.
   */
  function GetConnectedPlants(db: Db): (plants: seq<Plant>)
    ensures |plants| == CountWhere(db.plants, (row: PlantRow) => row.isConnected == 1)
    ensures forall i | 0 <= i < |plants| :: plants[i].connectedFlag && !IsConnected(plants[i])
    ensures forall i | 0 <= i < |plants| ::
      exists k | 0 <= k < |db.plants| :: db.plants[k].isConnected == 1 && plants[i] == PlantWithStoredOptima(db.plants[k])
    ensures forall k | 0 <= k < |db.plants| && db.plants[k].isConnected == 1 ::
      PlantWithStoredOptima(db.plants[k]) in plants
    ensures PlantIdsOk(db) ==> forall i, j | 0 <= i < j < |plants| :: plants[i].id < plants[j].id
  {
    CountIsFilterLength(db.plants, (row: PlantRow) => row.isConnected == 1);
    MapFilterContents(db.plants, (row: PlantRow) => row.isConnected == 1, PlantWithStoredOptima);
    RebuiltInRowOrder(db, (row: PlantRow) => row.isConnected == 1, PlantWithStoredOptima);
    Map(Filter(db.plants, (row: PlantRow) => row.isConnected == 1), PlantWithStoredOptima)
  }

  /**
   * `updatePlant` leaves the stored optima alone, so after a species change
   * the two ways of reading a plant disagree. `getPlantById` shows the new
   * species' profile. `getConnectedPlants` still shows the old optima.
   */
  lemma SpeciesChangeLeavesStoredOptima(db: Db, p: Plant, now: Long, i: int)
    requires 0 <= i < |db.plants| && db.plants[i].id == p.id && p.name.Some?
    ensures var r := UpdatePlant(db, p, now);
      && r.Updated?
      && r.db.plants[i].species == p.species
      && PlantWithStoredOptima(r.db.plants[i]).soilHumidityMin == db.plants[i].soilHumidityMin
      && PlantBySpecies(r.db.plants[i]).soilHumidityMin == ProfileFor(p.species).soilMin
  {
    CountPositiveIffSome(db.plants, (row: PlantRow) => row.id == p.id);
  }
}
