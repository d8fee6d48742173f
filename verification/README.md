# Mi Masetero Inteligente: the plant-health rule engine in Dafny

This project models the decision logic of the "Mi Masetero Inteligente" Android
app, a smart flower pot that reports soil humidity, temperature, ambient
humidity, UV level, tank water level and a pest count. The modelled parts are:

- the reading record `SensorData` and its fixed-threshold statuses;
- the `Plant` species profiles and the plant-specific range tests;
- the controller's `ArduinoResponse` and its conversion to a stored reading;
- the per-sensor and overall verdicts of `SensorStatusHelper`;
- the alert rules of `AlertGenerator`, and how each alert is posted by
  `NotificationHelper` (channel, priority, colour, icon, summary text);
- the `Device` online test and the weather records `WeatherCondition`,
  `WeatherMain` and `WeatherResponse`;
- `PasswordUtils` (hex encoding of a SHA-256 digest, password rules, recovery
  codes) and the `SessionManager` key/value session;
- `DatabaseHelper`, as four tables (users, plants, sensor readings, alerts)
  with SQLite's AUTOINCREMENT counters, a state invariant (unique increasing
  ids, unique emails), and every query `DatabaseHelper` issues.

Each Java class is one module. Java's `null` is `Option`, `float` readings are
`real`, and `long` and `int` arithmetic is written out: two's-complement wrap,
the `(int)` cast, `Math.round`, `String.valueOf` and `Long.parseLong`. The
modules `Nullable`, `Numbers`, `Text` and `Seqs` hold these helpers.
`Agreement` relates the alert rules to the status rules. The clock
(`System.currentTimeMillis`), `Math.random` and the SHA-256 digest are
parameters. An operation that reads the clock once takes its value `now`; one
that reads it twice takes a `Clock`, the function from the read's index to the
value that read returns, so the two reads may differ.

## Model

| member | source | states |
|---|---|---|
| SensorReadings.SoilStatus | app/src/main/java/com/devst/mimaseterointeligente/models/SensorData.java:45-55 | the soil status is CRITICAL_LOW, LOW, OPTIMAL, HIGH or CRITICAL_HIGH exactly on the bands <15, [15,30), [30,60], (60,70], >70 |
| SensorReadings.TemperatureStatus | app/src/main/java/com/devst/mimaseterointeligente/models/SensorData.java:58-68 | the temperature status bands <10, [10,18), [18,26], (26,30], >30, each as an if-and-only-if |
| SensorReadings.AmbientStatus | app/src/main/java/com/devst/mimaseterointeligente/models/SensorData.java:71-79 | ambient humidity has no CRITICAL_HIGH; its four bands <35, [35,40), [40,60], >60 |
| SensorReadings.UvStatus | app/src/main/java/com/devst/mimaseterointeligente/models/SensorData.java:82-90 | UV has no CRITICAL_LOW: anything below 2 is only LOW; bands [2,6], (6,8], >8 |
| SensorReadings.WaterStatus | app/src/main/java/com/devst/mimaseterointeligente/models/SensorData.java:93-99 | tank status bands <10, [10,30), >=30 |
| SensorReadings.PestStatus | app/src/main/java/com/devst/mimaseterointeligente/models/SensorData.java:102-108 | NONE only for zero pests; negative counts land in WARNING with one or two; more than two is CRITICAL |
| SensorReadings.EvaluateStatuses | app/src/main/java/com/devst/mimaseterointeligente/models/SensorData.java:43-109 | the six statuses are the six fixed-threshold classifications of the current readings |
| SensorReadings.NewSensorData | app/src/main/java/com/devst/mimaseterointeligente/models/SensorData.java:25-27 | the empty constructor leaves the statuses unset (the object is not yet consistent) and stamps the clock as its decimal text, which parses back to it |
| SensorReadings.SensorDataWithValues | app/src/main/java/com/devst/mimaseterointeligente/models/SensorData.java:30-40 | the value constructor yields a consistent object holding exactly the readings given, stamped with the clock's decimal text |
| SensorReadings.SetSoilHumidity | app/src/main/java/com/devst/mimaseterointeligente/models/SensorData.java:162-165 | after the setter the statuses describe the readings, and only the soil value changed |
| SensorReadings.SetTemperature | app/src/main/java/com/devst/mimaseterointeligente/models/SensorData.java:171-174 | after the setter the statuses describe the readings, and only the temperature changed |
| SensorReadings.SetAmbientHumidity | app/src/main/java/com/devst/mimaseterointeligente/models/SensorData.java:180-183 | after the setter the statuses describe the readings, and only the ambient humidity changed |
| SensorReadings.SetUvLevel | app/src/main/java/com/devst/mimaseterointeligente/models/SensorData.java:189-192 | after the setter the statuses describe the readings, and only the UV level changed |
| SensorReadings.SetWaterLevel | app/src/main/java/com/devst/mimaseterointeligente/models/SensorData.java:198-201 | after the setter the statuses describe the readings, and only the water level changed |
| SensorReadings.SetPestCount | app/src/main/java/com/devst/mimaseterointeligente/models/SensorData.java:207-210 | after the setter the statuses describe the readings, and only the pest count changed |
| SensorReadings.Apply | app/src/main/java/com/devst/mimaseterointeligente/models/SensorData.java:146-218 | a reading setter makes the object consistent; the id, plant id and timestamp setters leave readings and statuses alone |
| SensorReadings.SettersKeepStatusesConsistent | app/src/main/java/com/devst/mimaseterointeligente/models/SensorData.java:146-218 | any sequence of setter calls that starts consistent, or calls some reading setter, ends consistent |
| SensorReadings.CriticalNames | app/src/main/java/com/devst/mimaseterointeligente/models/SensorData.java:121-126 | a status name contains "CRITICAL" exactly for the two critical bands and critical pests |
| SensorReadings.OverallAlertLevel | app/src/main/java/com/devst/mimaseterointeligente/models/SensorData.java:120-139 | CRITICAL exactly when some status is critical; WARNING exactly when none is and one of the listed LOW/HIGH/WARNING statuses holds; otherwise OPTIMAL |
| SensorReadings.LowUvOrHighAmbientAloneIsOptimal | app/src/main/java/com/devst/mimaseterointeligente/models/SensorData.java:120-139 | UV LOW and ambient HIGH are not among the warnings, so a reading bad only there is OPTIMAL overall |
| SensorReadings.StatusesMonotone | app/src/main/java/com/devst/mimaseterointeligente/models/SensorData.java:43-99 | each fixed-threshold classifier is monotone in its reading |
| SensorReadings.NeedsPestPrevention | app/src/main/java/com/devst/mimaseterointeligente/models/SensorData.java:112-117 | red-spider conditions (air below 35 % and above 30 °C) or fungus conditions (soil above 70 %) |
| Plants.SetOptimalParametersBySpecies | app/src/main/java/com/devst/mimaseterointeligente/models/Plant.java:46-112 | only optima, light, connection flag and scientific name change; the optima, light and flag are exactly the species' profile (cactus soil 10-30, and so on); flag set only for Chlorophytum; unknown or null species get the default profile |
| Plants.NewPlant | app/src/main/java/com/devst/mimaseterointeligente/models/Plant.java:38-43 | the constructor keeps name, type and species and installs that species' profile |
| Plants.SetSpecies | app/src/main/java/com/devst/mimaseterointeligente/models/Plant.java:172-175 | the species is stored and the optima re-derived from its profile; the scientific name is set to the species for the three known species and kept otherwise; nothing else changes |
| Plants.SetSpeciesForgetsEarlierOptima | app/src/main/java/com/devst/mimaseterointeligente/models/Plant.java:172-175 | optima set by hand before a species change do not survive it |
| Plants.IsSoilHumidityOptimal | app/src/main/java/com/devst/mimaseterointeligente/models/Plant.java:115-117 | the soil value lies in the plant's closed optimal range |
| Plants.IsTemperatureOptimal | app/src/main/java/com/devst/mimaseterointeligente/models/Plant.java:119-121 | the temperature lies in the plant's closed optimal range |
| Plants.IsAmbientHumidityOptimal | app/src/main/java/com/devst/mimaseterointeligente/models/Plant.java:123-125 | the air humidity lies in the plant's closed optimal range |
| Plants.SoilHumidityStatus | app/src/main/java/com/devst/mimaseterointeligente/models/Plant.java:127-133 | the first-match chain <15, <min, >70, >max as five if-and-only-if bands |
| Plants.SoilStatusAgreesWithRangeTest | app/src/main/java/com/devst/mimaseterointeligente/models/Plant.java:115-133 | inside [15,70] the status is OPTIMAL exactly when the inclusive range test holds |
| Plants.CactusOptimalYetCritical | app/src/main/java/com/devst/mimaseterointeligente/models/Plant.java:74-133 | the cactus profile makes 12 % both in range and CRITICAL_LOW |
| Plants.DefaultSoilStatusIsSensorDataStatus | app/src/main/java/com/devst/mimaseterointeligente/models/Plant.java:127-133 | with the default 30-60 range the plant's soil status equals the fixed classifier of the reading record |
| Plants.IsConnected | app/src/main/java/com/devst/mimaseterointeligente/models/Plant.java:193-196 | connected iff the device id is non-null and non-empty, whatever the stored flag says |
| Plants.SetConnected | app/src/main/java/com/devst/mimaseterointeligente/models/Plant.java:193-200 | the stored flag changes but isConnected(), which reads the device id, does not |
| Plants.SetDeviceId | app/src/main/java/com/devst/mimaseterointeligente/models/Plant.java:206-210 | the device id is stored and the flag agrees with isConnected() afterwards |
| ArduinoResponses.EmptyResponse | app/src/main/java/com/devst/mimaseterointeligente/models/ArduinoResponse.java:82-85 | zero readings, the clock as timestamp, status "unknown" |
| ArduinoResponses.FullResponse | app/src/main/java/com/devst/mimaseterointeligente/models/ArduinoResponse.java:90-100 | the readings and timestamp given, status "ok" |
| ArduinoResponses.IsValid | app/src/main/java/com/devst/mimaseterointeligente/models/ArduinoResponse.java:181-188 | every reading within its physical box: 0-100 % soil, air and water, -40 to 85 °C, UV 0-15, no negative pest count |
| ArduinoResponses.ValidPestWarningMeansOneOrTwo | app/src/main/java/com/devst/mimaseterointeligente/models/ArduinoResponse.java:181-188 | for a valid response the pest WARNING band means one or two pests |
| ArduinoResponses.ToSensorData | app/src/main/java/com/devst/mimaseterointeligente/models/ArduinoResponse.java:193-204 | the record is consistent, belongs to the plant, holds the same readings, and its timestamp is the decimal text of the response's timestamp |
| ArduinoResponses.ToSensorDataIgnoresClock | app/src/main/java/com/devst/mimaseterointeligente/models/ArduinoResponse.java:193-204 | the clock at conversion time does not affect the result |
| SensorStatusHelper.ColorsDistinguishStatuses | app/src/main/java/com/devst/mimaseterointeligente/utils/SensorStatusHelper.java:20-22 | the three colours are distinct, so a colour identifies its status |
| SensorStatusHelper.StatusTestsPartition | app/src/main/java/com/devst/mimaseterointeligente/utils/SensorStatusHelper.java:42-44 | isOptimal, isWarning and isCritical each hold exactly for their level |
| SensorStatusHelper.EvaluateSoilHumidity | app/src/main/java/com/devst/mimaseterointeligente/utils/SensorStatusHelper.java:52-84 | colour agrees with status; CRITICAL, WARNING, OPTIMAL each as an if-and-only-if over the plant's range and the fixed bounds 15 and 70 |
| SensorStatusHelper.EvaluateTemperature | app/src/main/java/com/devst/mimaseterointeligente/utils/SensorStatusHelper.java:101-133 | as for soil with the fixed bounds 10 and 30 |
| SensorStatusHelper.EvaluateAmbientHumidity | app/src/main/java/com/devst/mimaseterointeligente/utils/SensorStatusHelper.java:150-176 | CRITICAL exactly below 35; above the maximum is only a WARNING |
| SensorStatusHelper.EvaluateUvLevel | app/src/main/java/com/devst/mimaseterointeligente/utils/SensorStatusHelper.java:193-225 | plant-independent; OPTIMAL exactly on [3,6], CRITICAL below 1 or above 8 |
| SensorStatusHelper.UvLevelDescription | app/src/main/java/com/devst/mimaseterointeligente/utils/SensorStatusHelper.java:230-236 | five description bands closed below at 1, 3, 6 and 8 |
| SensorStatusHelper.UvDescriptionAgreesExceptAtCutPoints | app/src/main/java/com/devst/mimaseterointeligente/utils/SensorStatusHelper.java:193-236 | description and status agree everywhere except at exactly 6 and 8 |
| SensorStatusHelper.EvaluateWaterLevel | app/src/main/java/com/devst/mimaseterointeligente/utils/SensorStatusHelper.java:243-263 | CRITICAL below 20, WARNING below 40, otherwise OPTIMAL |
| SensorStatusHelper.EvaluatePests | app/src/main/java/com/devst/mimaseterointeligente/utils/SensorStatusHelper.java:277-297 | CRITICAL above 5, WARNING for 1 to 5, OPTIMAL for zero or negative counts |
| SensorStatusHelper.LowChecksWin | app/src/main/java/com/devst/mimaseterointeligente/utils/SensorStatusHelper.java:52-133 | a value below the plant minimum is a WARNING even when above the fixed high-critical bound |
| SensorStatusHelper.WaterAndPestsMonotone | app/src/main/java/com/devst/mimaseterointeligente/utils/SensorStatusHelper.java:243-297 | more water never worsens the status; more pests never improve it |
| SensorStatusHelper.Verdict | app/src/main/java/com/devst/mimaseterointeligente/utils/SensorStatusHelper.java:305-343 | CRITICAL iff some counted status is, WARNING iff none is and some is a warning, OPTIMAL iff all are; the message carries the exact number of critical statuses, respectively of warnings |
| SensorStatusHelper.EvaluateOverallStatus | app/src/main/java/com/devst/mimaseterointeligente/utils/SensorStatusHelper.java:304-344 | the verdict over soil, temperature, ambient humidity, UV and pests, its message giving the number of those five that are critical (or, without any, that are warnings) |
| SensorStatusHelper.OverallStatusIgnoresWater | app/src/main/java/com/devst/mimaseterointeligente/utils/SensorStatusHelper.java:309-322 | the water level never changes the overall status |
| SensorStatusHelper.EmptyTankAloneIsHealthy | app/src/main/java/com/devst/mimaseterointeligente/utils/SensorStatusHelper.java:304-344 | an empty tank is CRITICAL on its own yet leaves an otherwise optimal plant OPTIMAL |
| AlertGenerator.CreateAlert | app/src/main/java/com/devst/mimaseterointeligente/utils/AlertGenerator.java:264-276 | an unread alert of the plant with the given type, title, message, severity and icon, stamped with the decimal text of the one clock read |
| AlertGenerator.RuleAlert | app/src/main/java/com/devst/mimaseterointeligente/utils/AlertGenerator.java:77-259 | a fired rule's alert carries that rule's type, severity, title, message and icon |
| AlertGenerator.CheckSoilHumidity | app/src/main/java/com/devst/mimaseterointeligente/utils/AlertGenerator.java:77-116 | at most one WATERING alert, raised iff v<min or v<15 or v>70; CRITICAL exactly below 15 or above 70 at or above the minimum |
| AlertGenerator.CheckTemperature | app/src/main/java/com/devst/mimaseterointeligente/utils/AlertGenerator.java:121-160 | at most one TEMPERATURE alert, raised iff t<min or t<10 or t>30; CRITICAL exactly below 10 or above 30 at or above the minimum |
| AlertGenerator.CheckAmbientHumidity | app/src/main/java/com/devst/mimaseterointeligente/utils/AlertGenerator.java:165-182 | one CRITICAL alert exactly below 35 % |
| AlertGenerator.CheckWaterLevel | app/src/main/java/com/devst/mimaseterointeligente/utils/AlertGenerator.java:187-204 | one WARNING alert exactly below 20 % |
| AlertGenerator.CheckPests | app/src/main/java/com/devst/mimaseterointeligente/utils/AlertGenerator.java:209-226 | one CRITICAL PEST alert exactly when a pest was counted |
| AlertGenerator.CheckPestConditions | app/src/main/java/com/devst/mimaseterointeligente/utils/AlertGenerator.java:231-259 | red-spider WARNING iff dry hot air, fungus WARNING iff waterlogged soil, both PEST |
| AlertGenerator.FiredRules | app/src/main/java/com/devst/mimaseterointeligente/utils/AlertGenerator.java:53-69 | the number of alerts is the sum of the seven firing conditions, at most seven |
| AlertGenerator.FiredRulesInCheckOrder | app/src/main/java/com/devst/mimaseterointeligente/utils/AlertGenerator.java:53-69 | the fired rules come grouped by check in the order the checks run |
| AlertGenerator.GenerateAlerts | app/src/main/java/com/devst/mimaseterointeligente/utils/AlertGenerator.java:46-72 | nothing for a null plant or reading; otherwise exactly one alert per fired rule, in order, alert i carrying rule i's type, severity, title, message and icon, the plant id, unread, and the text of the i-th clock read |
| AlertGenerator.GeneratedAlertsInCheckOrder | app/src/main/java/com/devst/mimaseterointeligente/utils/AlertGenerator.java:46-72 | the generated alerts come out grouped by type, in the order the checks run: watering, temperature, air humidity, tank, pests |
| AlertGenerator.SevenAlertsReachable | app/src/main/java/com/devst/mimaseterointeligente/utils/AlertGenerator.java:46-72 | a concrete reading produces all seven alerts |
| AlertGenerator.FilterBySeverity | app/src/main/java/com/devst/mimaseterointeligente/utils/AlertGenerator.java:281-289 | an order-preserving subsequence holding exactly the alerts of that severity, as many as there are |
| AlertGenerator.GetCriticalAlerts | app/src/main/java/com/devst/mimaseterointeligente/utils/AlertGenerator.java:294-296 | the CRITICAL alerts, in order, as many as there are |
| AlertGenerator.HasCriticalAlerts | app/src/main/java/com/devst/mimaseterointeligente/utils/AlertGenerator.java:301-303 | true iff some alert is CRITICAL |
| AlertGenerator.FilterIdempotent | app/src/main/java/com/devst/mimaseterointeligente/utils/AlertGenerator.java:281-289 | filtering twice by one severity equals filtering once |
| AlertGenerator.FilterAppend | app/src/main/java/com/devst/mimaseterointeligente/utils/AlertGenerator.java:281-289 | filtering distributes over concatenation |
| Agreement.SoilAlertFollowsSoilStatus | app/src/main/java/com/devst/mimaseterointeligente/utils/AlertGenerator.java:77-116 | a soil alert has the soil status's severity; none is raised exactly when that status is OPTIMAL or the above-maximum WARNING |
| Agreement.TemperatureAlertFollowsTemperatureStatus | app/src/main/java/com/devst/mimaseterointeligente/utils/AlertGenerator.java:121-160 | the same agreement and gap for temperature |
| Agreement.AmbientAlertOnlyWhenCritical | app/src/main/java/com/devst/mimaseterointeligente/utils/AlertGenerator.java:165-182 | the dry-air alert is raised exactly when the ambient status is CRITICAL, with that severity |
| Agreement.TankAlertIsMilderThanTankStatus | app/src/main/java/com/devst/mimaseterointeligente/utils/AlertGenerator.java:187-204 | the tank alert fires exactly when the tank status is CRITICAL but is only a WARNING |
| Agreement.PestAlertIsHarsherThanPestStatus | app/src/main/java/com/devst/mimaseterointeligente/utils/AlertGenerator.java:209-226 | any pest raises a CRITICAL alert; it matches the status only above five pests |
| Agreement.PreventionAlertsIffNeeded | app/src/main/java/com/devst/mimaseterointeligente/utils/AlertGenerator.java:231-259 | the prevention check raises something exactly when needsPestPrevention() holds |
| Agreement.GeneratedAlertsArePostedAsAlerts | app/src/main/java/com/devst/mimaseterointeligente/services/NotificationHelper.java:188-248 | a rule's alert never goes to the info channel or low priority, gets the alert icon exactly for temperature and pest rules, and the colour of its status level |
| Agreement.GeneratedBatchAvoidsInfoChannel | app/src/main/java/com/devst/mimaseterointeligente/services/NotificationHelper.java:188-197 | no alert generateAlerts returns is posted in the info channel |
| NotificationHelper.ChannelIdForSeverity | app/src/main/java/com/devst/mimaseterointeligente/services/NotificationHelper.java:188-197 | critical channel iff "CRITICAL", warning channel iff "WARNING", info channel for every other text |
| NotificationHelper.PriorityForSeverity | app/src/main/java/com/devst/mimaseterointeligente/services/NotificationHelper.java:202-211 | high, default, low by the same three cases, each an if-and-only-if |
| NotificationHelper.ColorForSeverity | app/src/main/java/com/devst/mimaseterointeligente/services/NotificationHelper.java:216-225 | red, amber, green as negative Java ints by the same three cases |
| NotificationHelper.MapsPartitionAlike | app/src/main/java/com/devst/mimaseterointeligente/services/NotificationHelper.java:188-225 | two severities share a channel iff they share a priority iff they share a colour; priority ranks critical over warning over the rest |
| NotificationHelper.ColorsMatchStatusColors | app/src/main/java/com/devst/mimaseterointeligente/services/NotificationHelper.java:216-225 | each status level's name, used as a severity, gets that level's colour |
| NotificationHelper.LowerCaseSeveritiesAreInformation | app/src/main/java/com/devst/mimaseterointeligente/services/NotificationHelper.java:188-225 | the lower-case severities of the alert record fall into info channel, low priority, green |
| NotificationHelper.IconForAlertType | app/src/main/java/com/devst/mimaseterointeligente/services/NotificationHelper.java:230-248 | the alert icon exactly for TEMPERATURE and PEST, the info icon for every other text |
| NotificationHelper.SummaryKindFor | app/src/main/java/com/devst/mimaseterointeligente/services/NotificationHelper.java:135-142 | both counts only when both are positive; critical-only when warnings are not; warnings text whenever the critical count is not positive |
| NotificationHelper.SummaryMessage | app/src/main/java/com/devst/mimaseterointeligente/services/NotificationHelper.java:135-142 | the text starts with the critical count when positive, else with the warning count, and ends in "advertencias" unless warnings were left out |
| NotificationHelper.WarningsOnlySummaryOutranksItsAlerts | app/src/main/java/com/devst/mimaseterointeligente/services/NotificationHelper.java:152-158 | the summary uses the critical channel and high priority even when it reports only warnings |
| PasswordUtils.Unsigned | app/src/main/java/com/devst/mimaseterointeligente/utils/PasswordUtils.java:20 | 0xff & b is in [0,256) and congruent to b modulo 256 |
| PasswordUtils.ByteHex | app/src/main/java/com/devst/mimaseterointeligente/utils/PasswordUtils.java:20-24 | two characters: the high nibble then the low nibble, zero-padded |
| PasswordUtils.HexOfBytes | app/src/main/java/com/devst/mimaseterointeligente/utils/PasswordUtils.java:17-27 | twice as many characters as bytes, all lower-case hexadecimal |
| PasswordUtils.HexOfBytesNibbles | app/src/main/java/com/devst/mimaseterointeligente/utils/PasswordUtils.java:17-27 | characters 2i and 2i+1 are the nibbles of byte i |
| PasswordUtils.DecodeHexOfBytes | app/src/main/java/com/devst/mimaseterointeligente/utils/PasswordUtils.java:17-27 | decoding the hexadecimal text gives back the bytes |
| PasswordUtils.HexOfBytesInjective | app/src/main/java/com/devst/mimaseterointeligente/utils/PasswordUtils.java:17-27 | distinct digests have distinct texts |
| PasswordUtils.EncodeHex | app/src/main/java/com/devst/mimaseterointeligente/utils/PasswordUtils.java:17-27 | the StringBuilder loop computes the hexadecimal text of the digest |
| PasswordUtils.HashPassword | app/src/main/java/com/devst/mimaseterointeligente/utils/PasswordUtils.java:12-34 | without the algorithm the password itself; otherwise lower-case hex, two characters per byte, decoding to the digest |
| PasswordUtils.VerifyPassword | app/src/main/java/com/devst/mimaseterointeligente/utils/PasswordUtils.java:39-42 | the password's hash equals the stored text |
| PasswordUtils.VerifyRoundTrip | app/src/main/java/com/devst/mimaseterointeligente/utils/PasswordUtils.java:39-42 | a hash verifies its own password; a SHA-256 hash has 64 characters; verification succeeds iff the digests are equal |
| PasswordUtils.WithoutDigestPasswordsAreStoredPlain | app/src/main/java/com/devst/mimaseterointeligente/utils/PasswordUtils.java:29-33 | without the algorithm any text verifies against itself |
| PasswordUtils.IsPasswordValid | app/src/main/java/com/devst/mimaseterointeligente/utils/PasswordUtils.java:47-58 | invalid iff null or fewer than six UTF-16 code units |
| PasswordUtils.ThreeEmojiAreLongEnough | app/src/main/java/com/devst/mimaseterointeligente/utils/PasswordUtils.java:47-58 | three emoji count as six code units and pass |
| PasswordUtils.RecoveryCode | app/src/main/java/com/devst/mimaseterointeligente/utils/PasswordUtils.java:63-66 | four decimal digits denoting a number from 1000 to 9999 |
| PasswordUtils.EveryCodeReachable | app/src/main/java/com/devst/mimaseterointeligente/utils/PasswordUtils.java:63-66 | every code from 1000 to 9999 comes from some random value |
| SessionManager.PutString | app/src/main/java/com/devst/mimaseterointeligente/utils/SessionManager.java:30-36 | a non-null value is stored, null removes the key, no other key changes |
| SessionManager.IsLoggedIn | app/src/main/java/com/devst/mimaseterointeligente/utils/SessionManager.java:41-43 | the stored login flag, false when absent |
| SessionManager.UserId | app/src/main/java/com/devst/mimaseterointeligente/utils/SessionManager.java:48-50 | the stored id, -1 when absent |
| SessionManager.UserEmail | app/src/main/java/com/devst/mimaseterointeligente/utils/SessionManager.java:55-57 | the stored email, "" when absent |
| SessionManager.UserName | app/src/main/java/com/devst/mimaseterointeligente/utils/SessionManager.java:62-64 | the stored name, "" when absent |
| SessionManager.FreshSessionShowsDefaults | app/src/main/java/com/devst/mimaseterointeligente/utils/SessionManager.java:41-64 | an empty session is well typed and shows every getter's default |
| SessionManager.CreateLoginSession | app/src/main/java/com/devst/mimaseterointeligente/utils/SessionManager.java:30-36 | the session is well typed and the getters show logged in, the id, and the email and name ("" for null) |
| SessionManager.SaveUserEmail | app/src/main/java/com/devst/mimaseterointeligente/utils/SessionManager.java:69-72 | only the email the getters show changes; well-typedness is kept |
| SessionManager.SaveUserName | app/src/main/java/com/devst/mimaseterointeligente/utils/SessionManager.java:77-80 | only the name the getters show changes; well-typedness is kept |
| SessionManager.Logout | app/src/main/java/com/devst/mimaseterointeligente/utils/SessionManager.java:85-88 | every getter is back at its default |
| SessionManager.LogoutIdempotent | app/src/main/java/com/devst/mimaseterointeligente/utils/SessionManager.java:85-88 | logging out twice is once; a logged-out session looks fresh |
| SessionManager.SavingDoesNotLogIn | app/src/main/java/com/devst/mimaseterointeligente/utils/SessionManager.java:69-80 | saving email or name after logout leaves the session logged out with id -1 |
| SessionManager.SavesCommute | app/src/main/java/com/devst/mimaseterointeligente/utils/SessionManager.java:30-80 | the two saves commute, and a later login overrides both |
| Users.NewUser | app/src/main/java/com/devst/mimaseterointeligente/models/User.java:20-24 | name, email and password as given, every other field unset |
| Devices.IsOnline | app/src/main/java/com/devst/mimaseterointeligente/models/Device.java:92-104 | offline when the last-seen text is null or does not parse as a long |
| Devices.OnlineIffSeenRecently | app/src/main/java/com/devst/mimaseterointeligente/models/Device.java:92-104 | without overflow, online iff seen less than five minutes ago; future timestamps count as online |
| Devices.OldestTimestampWrapsToOnline | app/src/main/java/com/devst/mimaseterointeligente/models/Device.java:100 | a last-seen of Long.MIN_VALUE wraps the subtraction and reads as online |
| Devices.NewDevice | app/src/main/java/com/devst/mimaseterointeligente/models/Device.java:24-30 | available, on no plant, last seen at the decimal text of the clock, hence online |
| Devices.StatusText | app/src/main/java/com/devst/mimaseterointeligente/models/Device.java:109-117 | "Offline" iff not online, "En uso" iff online and taken, "Disponible" iff online and available |
| Devices.NeverSeenIsOffline | app/src/main/java/com/devst/mimaseterointeligente/models/Device.java:92-117 | a device never seen is "Offline" whatever its availability |
| WeatherConditions.WeatherEmoji | app/src/main/java/com/devst/mimaseterointeligente/models/WeatherCondition.java:125-143 | each emoji as an if-and-only-if over the id ranges, 4xx and ids below 200 falling to the default |
| WeatherConditions.IsDaytime | app/src/main/java/com/devst/mimaseterointeligente/models/WeatherCondition.java:118-120 | the icon is non-null and ends in "d" |
| WeatherConditions.HasPrecipitation | app/src/main/java/com/devst/mimaseterointeligente/models/WeatherCondition.java:148-150 | ids 200 to 699 |
| WeatherConditions.IsClear | app/src/main/java/com/devst/mimaseterointeligente/models/WeatherCondition.java:155-157 | id 800 exactly |
| WeatherConditions.IsCloudy | app/src/main/java/com/devst/mimaseterointeligente/models/WeatherCondition.java:162-164 | ids 801 to 899 |
| WeatherConditions.IsThunderstorm | app/src/main/java/com/devst/mimaseterointeligente/models/WeatherCondition.java:169-171 | ids 200 to 299 |
| WeatherConditions.IsRaining | app/src/main/java/com/devst/mimaseterointeligente/models/WeatherCondition.java:176-178 | ids 300 to 599, the 4xx group included |
| WeatherConditions.PredicatesAndEmoji | app/src/main/java/com/devst/mimaseterointeligente/models/WeatherCondition.java:125-178 | storms and rain are precipitation; clear and cloudy exclude each other; 4xx is raining with the default emoji; ids from 900 get the cloud yet are not cloudy |
| WeatherConditions.IconUrl | app/src/main/java/com/devst/mimaseterointeligente/models/WeatherCondition.java:98-103 | null iff the icon is null or empty; otherwise the CDN prefix and @2x.png suffix around it |
| WeatherConditions.IconUrlDeterminesIcon | app/src/main/java/com/devst/mimaseterointeligente/models/WeatherCondition.java:98-103 | the icon can be read back from the URL, so the map is injective |
| WeatherConditions.DescriptionCapitalized | app/src/main/java/com/devst/mimaseterointeligente/models/WeatherCondition.java:108-113 | "" for null or empty; otherwise the rest unchanged and the first character upper-cased |
| WeatherConditions.CapitalizeIdempotent | app/src/main/java/com/devst/mimaseterointeligente/models/WeatherCondition.java:108-113 | capitalizing twice equals capitalizing once |
| WeatherMains.ComfortFlagsConsistent | app/src/main/java/com/devst/mimaseterointeligente/models/WeatherMain.java:169-192 | never hot and cold, never humid and dry; hot rounds to at least 28, cold to at most 15 |
| WeatherMains.IsHot | app/src/main/java/com/devst/mimaseterointeligente/models/WeatherMain.java:169-171 | above 28 °C |
| WeatherMains.IsCold | app/src/main/java/com/devst/mimaseterointeligente/models/WeatherMain.java:176-178 | below 15 °C |
| WeatherMains.IsHumid | app/src/main/java/com/devst/mimaseterointeligente/models/WeatherMain.java:183-185 | above 70 % |
| WeatherMains.IsDry | app/src/main/java/com/devst/mimaseterointeligente/models/WeatherMain.java:190-192 | below 30 % |
| WeatherMains.TempFormatted | app/src/main/java/com/devst/mimaseterointeligente/models/WeatherMain.java:148-157 | ends in °C and the prefix is the decimal text of Math.round of the temperature |
| WeatherMains.TempRange | app/src/main/java/com/devst/mimaseterointeligente/models/WeatherMain.java:162-164 | the range text ends in °C |
| WeatherMains.TempRangeJoinsFormattedBounds | app/src/main/java/com/devst/mimaseterointeligente/models/WeatherMain.java:148-164 | the range is the formatted minimum and maximum joined by " - " |
| WeatherResponses.FirstWeatherCondition | app/src/main/java/com/devst/mimaseterointeligente/models/WeatherResponse.java:220-225 | null iff the list is null, empty, or its first entry null; otherwise that first entry |
| WeatherResponses.IsSuccessful | app/src/main/java/com/devst/mimaseterointeligente/models/WeatherResponse.java:213-215 | the response code is 200 |
| WeatherResponses.WeatherDescription | app/src/main/java/com/devst/mimaseterointeligente/models/WeatherResponse.java:240-246 | "No disponible" without a first condition, otherwise its description |
| WeatherResponses.WeatherIcon | app/src/main/java/com/devst/mimaseterointeligente/models/WeatherResponse.java:251-257 | "" without a first condition, otherwise its icon |
| WeatherResponses.FallbacksAreAmbiguous | app/src/main/java/com/devst/mimaseterointeligente/models/WeatherResponse.java:240-257 | the fallback texts can also come from a real condition |
| WeatherResponses.TemperatureFormatted | app/src/main/java/com/devst/mimaseterointeligente/models/WeatherResponse.java:230-235 | "N/A" without main data, otherwise the decimal text of the rounded temperature followed by °C |
| WeatherResponses.TemperatureFallbackIsDistinct | app/src/main/java/com/devst/mimaseterointeligente/models/WeatherResponse.java:230-235 | "N/A" exactly when main data is missing |
| DatabaseHelper.CreateUser | app/src/main/java/com/devst/mimaseterointeligente/database/DatabaseHelper.java:166-182 | -1 and no change iff name, email or password is null or the email is taken; otherwise the next id and one appended row, created at the first clock read and updated at the second; the table invariant is kept |
| DatabaseHelper.GetUserByEmail | app/src/main/java/com/devst/mimaseterointeligente/database/DatabaseHelper.java:185-208 | null iff no row has that email; otherwise a stored row with it |
| DatabaseHelper.EmailExists | app/src/main/java/com/devst/mimaseterointeligente/database/DatabaseHelper.java:586-604 | true iff getUserByEmail finds a user |
| DatabaseHelper.CreatedUserIsFound | app/src/main/java/com/devst/mimaseterointeligente/database/DatabaseHelper.java:166-208 | a created user is found by email with the fields given, and a second user with that email is refused |
| DatabaseHelper.UpdateUser | app/src/main/java/com/devst/mimaseterointeligente/database/DatabaseHelper.java:211-228 | throws iff the id exists and name or email is null or the email is another user's; otherwise rows with the id get the new name, email, image, time and a non-null password, others unchanged; invariant kept |
| DatabaseHelper.UpdatePassword | app/src/main/java/com/devst/mimaseterointeligente/database/DatabaseHelper.java:612-628 | true iff a user has the email; exactly those rows get the new password and time; invariant kept |
| DatabaseHelper.UpdatedPasswordIsRead | app/src/main/java/com/devst/mimaseterointeligente/database/DatabaseHelper.java:612-628 | after the update getUserByEmail returns the new password |
| DatabaseHelper.CreatePlant | app/src/main/java/com/devst/mimaseterointeligente/database/DatabaseHelper.java:233-258 | -1 and no change iff the name is null; otherwise the next id and the plant's row, stamped by two clock reads; invariant kept |
| DatabaseHelper.RowOfPlant | app/src/main/java/com/devst/mimaseterointeligente/database/DatabaseHelper.java:233-258 | the stored connection column is 1 exactly when isConnected() holds; created_at and updated_at are the texts of the first and second clock read |
| DatabaseHelper.PlantBySpecies | app/src/main/java/com/devst/mimaseterointeligente/database/DatabaseHelper.java:268-281 | identity and texts come back, optima come from the species profile, and the plant is never isConnected() |
| DatabaseHelper.PlantWithStoredOptima | app/src/main/java/com/devst/mimaseterointeligente/database/DatabaseHelper.java:506-530 | the stored optima, light level and timestamps come back |
| DatabaseHelper.GetUserPlants | app/src/main/java/com/devst/mimaseterointeligente/database/DatabaseHelper.java:261-288 | exactly the user's rows rebuilt from the species profile, none connected, in increasing id order |
| DatabaseHelper.GetPlantsCountByUserId | app/src/main/java/com/devst/mimaseterointeligente/database/DatabaseHelper.java:295-306 | never more than the number of stored plants |
| DatabaseHelper.PlantsCountMatchesList | app/src/main/java/com/devst/mimaseterointeligente/database/DatabaseHelper.java:295-306 | the count equals the length of the list, and getPlantsByUserId is the same list |
| DatabaseHelper.GetPlantsByUserId | app/src/main/java/com/devst/mimaseterointeligente/database/DatabaseHelper.java:657-659 | the same list as getUserPlants; PlantsCountMatchesList states the equality |
| DatabaseHelper.GetPlantById | app/src/main/java/com/devst/mimaseterointeligente/database/DatabaseHelper.java:309-331 | null iff no row has the id; otherwise that row read back, not connected |
| DatabaseHelper.PlantRoundTrip | app/src/main/java/com/devst/mimaseterointeligente/database/DatabaseHelper.java:233-331 | create then read keeps names and species, turns isConnected() into the flag, loses the device id and replaces the optima by the profile's |
| DatabaseHelper.ConnectedRowsReadDisconnected | app/src/main/java/com/devst/mimaseterointeligente/database/DatabaseHelper.java:479-503 | plants read back are flagged connected at most, never isConnected() |
| DatabaseHelper.UpdatePlant | app/src/main/java/com/devst/mimaseterointeligente/database/DatabaseHelper.java:629-650 | throws iff the id exists and the name is null; rows with the id get the new name, type, species, scientific name and image, a 0/1 connection flag that is 1 iff isConnected(), updated_at set to the clock, and keep their optima; other rows unchanged; invariant kept |
| DatabaseHelper.SpeciesChangeLeavesStoredOptima | app/src/main/java/com/devst/mimaseterointeligente/database/DatabaseHelper.java:629-650 | after a species change the stored optima are stale while getPlantById shows the new profile |
| DatabaseHelper.DeletePlant | app/src/main/java/com/devst/mimaseterointeligente/database/DatabaseHelper.java:334-345 | the plant, its readings and its alerts are gone; every other row stays, in the same order; the table invariant is kept |
| DatabaseHelper.DeletedPlantIsGone | app/src/main/java/com/devst/mimaseterointeligente/database/DatabaseHelper.java:334-394 | after deletion neither the plant nor a latest reading is found |
| DatabaseHelper.InsertSensorData | app/src/main/java/com/devst/mimaseterointeligente/database/DatabaseHelper.java:350-367 | the next id and one appended row; invariant kept |
| DatabaseHelper.LatestRow | app/src/main/java/com/devst/mimaseterointeligente/database/DatabaseHelper.java:370-394 | a row of the plant whose timestamp text is not below any other of the plant's; none iff the plant has no rows |
| DatabaseHelper.SensorDataOfRow | app/src/main/java/com/devst/mimaseterointeligente/database/DatabaseHelper.java:379-388 | a consistent record with the row's id, plant, readings and timestamp |
| DatabaseHelper.GetLatestSensorData | app/src/main/java/com/devst/mimaseterointeligente/database/DatabaseHelper.java:370-394 | null iff the plant has no readings; otherwise a consistent record of a stored row with the greatest timestamp text |
| DatabaseHelper.NewestInsertIsLatest | app/src/main/java/com/devst/mimaseterointeligente/database/DatabaseHelper.java:350-394 | a reading inserted with the greatest timestamp text is the one read back |
| DatabaseHelper.TextOrderIsNotTimeOrder | app/src/main/java/com/devst/mimaseterointeligente/database/DatabaseHelper.java:374-376 | timestamps compare as text: "999" sorts after "1000" |
| DatabaseHelper.CreateAlert | app/src/main/java/com/devst/mimaseterointeligente/database/DatabaseHelper.java:399-415 | the next id and the alert appended with it; invariant kept |
| DatabaseHelper.GetAllAlerts | app/src/main/java/com/devst/mimaseterointeligente/database/DatabaseHelper.java:418-445 | the same alerts, newest timestamp first |
| DatabaseHelper.GetUnreadAlerts | app/src/main/java/com/devst/mimaseterointeligente/database/DatabaseHelper.java:535-559 | exactly the unread alerts, newest timestamp first |
| DatabaseHelper.GetUnreadAlertsCount | app/src/main/java/com/devst/mimaseterointeligente/database/DatabaseHelper.java:460-474 | equals the number of alerts getUnreadAlerts returns |
| DatabaseHelper.MarkAlertAsRead | app/src/main/java/com/devst/mimaseterointeligente/database/DatabaseHelper.java:448-457 | the alert with the id becomes read, every other row unchanged; invariant kept |
| DatabaseHelper.MarkAlertAsReadIdempotent | app/src/main/java/com/devst/mimaseterointeligente/database/DatabaseHelper.java:448-457 | marking an alert read twice is marking it once |
| DatabaseHelper.MarkAlertAsReadCount | app/src/main/java/com/devst/mimaseterointeligente/database/DatabaseHelper.java:448-474 | the unread count never rises, and drops by exactly one when the marked alert was stored and unread |
| DatabaseHelper.GetConnectedPlants | app/src/main/java/com/devst/mimaseterointeligente/database/DatabaseHelper.java:479-503 | exactly the rows stored as connected rebuilt with their stored optima, each flagged but not isConnected(), in increasing id order |
| AlertOrder.SortNewestFirst | app/src/main/java/com/devst/mimaseterointeligente/database/DatabaseHelper.java:418-445 | a permutation of the alerts with no alert older than one after it (NULL timestamps last) |
| AlertOrder.InsertNewestFirst | app/src/main/java/com/devst/mimaseterointeligente/database/DatabaseHelper.java:418-445 | inserting into a newest-first list keeps it newest-first and adds exactly that alert |

## Left out

- Android plumbing is not modelled: activities, adapters, Retrofit clients, the Firebase migration, and the building and posting of notifications. Only the pure choices of `NotificationHelper` are modelled.
- Float precision is not modelled. Readings are exact reals, so `getFloat` rounding on the way back from SQLite is not represented, and neither are NaN or infinities.
- `Math.round` is modelled as floor(x + 0.5) saturated to the `int` range; float rounding of x + 0.5 itself is not modelled.
- `String.toUpperCase` on the first character of a weather description is modelled for ASCII and Latin-1 only, including 'ß' to "SS". `substring(0, 1)` is modelled per code point, so splitting a surrogate pair is not represented.
- `Long.parseLong` is modelled for ASCII digits with an optional sign; other Unicode decimal digits, which Java also accepts, are left out.
- SHA-256 itself is a parameter (`Digest`). So is the platform's default charset used by `getBytes()`.
- The SQL layer is modelled by its effect on the tables. `onCreate`/`onUpgrade`, cursors, the 2^63 rowid limit and foreign keys are left out. Foreign keys are off by default on Android, so deleting a plant only removes what `deletePlant` deletes.
- Queries without `ORDER BY` are taken to return rows in rowid order. Ties under `ORDER BY timestamp DESC` are taken to resolve to the earlier row. SQLite does not promise either order.
- DatabaseHelper.GetUserByEmail: a `null` email makes the query throw; the model takes a non-null email. The same holds for `UpdatePassword`.
- PasswordUtils.HashPassword: a `null` password makes `getBytes()` throw, and `VerifyPassword` with a `null` stored hash returns false; both take non-null texts here.
- NotificationHelper.ChannelIdForSeverity: a `null` severity makes the `switch` throw; the model takes a non-null text. The same holds for `PriorityForSeverity`, `ColorForSeverity` and `IconForAlertType`.
- AlertGenerator.FilterBySeverity: requires every alert's severity to be set, because `filterBySeverity` calls `equals` on it and a `null` severity throws; the same requirement carries over to `AlertGenerator.GetCriticalAlerts` and `AlertGenerator.HasCriticalAlerts`. A `null` severity argument, for which `filterBySeverity` returns an empty list, is not representable; the only caller passes the constant "CRITICAL".
- SensorReadings.OverallAlertLevel: requires the statuses to be set, because before the first reading setter they are `null` and the call throws.
- Devices.IsOnline: the contract states only when the result is false. The numeric comparison, including the wrap-around of the `long` subtraction, is stated by `OnlineIffSeenRecently` and `OldestTimestampWrapsToOnline`.
- DatabaseHelper.GetPlantsCountByUserId: the contract only bounds the count. Its equality with the list length is `PlantsCountMatchesList`.
- WeatherMains.TempRange: the contract states only the suffix. The full shape is `TempRangeJoinsFormattedBounds`.
- DatabaseHelper.EmailExists: a `null` email makes the query throw (DatabaseHelper.java:592); the model takes a non-null email.
- NotificationHelper.SummaryMessage: `String.format` with `%d` uses the default locale's digits; the model writes ASCII digits.
- WeatherConditions.DescriptionCapitalized: locale-specific upper-casing by the default locale, such as the Turkish dotted capital I for 'i', is not modelled.
- `toString` methods and plain getters and setters of the records are left out; the records are datatypes.
- The `SharedPreferences` file is a map; the asynchronous `apply()` and the file on disk are not modelled.
