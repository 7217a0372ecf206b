# securypi camera and sensor control, modelled in Dafny

securypi is a Raspberry Pi home-security web application. This project
models its control logic with the hardware, the threads and the clock taken
out:

- the camera wrapper `MyPicamera2`: sensor-mode selection, the preview
  (lores) size clamp, the framerate clamp, noise-reduction validation, and
  the recording state machine;
- live MJPEG streaming: the latest-frame slot, the byte-exact multipart
  part framer, and the encoder/timer state machine;
- background motion capturing in both revisions. This covers the pixel
  change ratio, one tick of the detection loop, the loop itself, and the
  start/stop lifecycle with its setters;
- the current weather station: sensor selection, bounded retry reads,
  the "N/A" presentation, logging only when a value is present, and the
  current background measurement logger;
- the older weather station, weather sensor and sensor classes;
- the length validator for user names and passwords.

Sensor and camera reads are oracles passed as parameters:

- a function from attempt number to reading, for retry loops;
- a `Reading` that is a value, missing (`None`), or raising.

A "now" parameter replaces `time.time()`. A thread is modelled by its
identity:

- `thread: Option<nat>` holds the live thread;
- `threadsStarted` counts the threads started;
- a ghost `running` set holds the threads started and not yet joined.

Python's `round` is an abstract parameter `rnd`. Celsius/Fahrenheit
conversions are exact over `real`.

Modules follow the source files:

| module | source file |
|---|---|
| `MyCam` | peripherals/camera/mycam.py |
| `Streaming` | peripherals/camera/streaming.py |
| `MotionLoop` | the loop body and `image_change_ratio` shared by both motion-capturing revisions |
| `PeripheralMotionCapturing` | peripherals/camera/motion_capturing.py |
| `LegacyMotionCapturing` | sensors/camera/motion_capturing.py |
| `PeripheralWeatherStation` | peripherals/measurements/weather_station.py |
| `PeripheralMeasurementLogger` | peripherals/measurements/measurement_logger.py |
| `LegacyWeatherStation` | sensors/weather_station.py |
| `WeatherSensor` | sensors/weather_sensor.py |
| `Sensor` | sensors/sensor.py |
| `StringParsing` | services/string_parsing.py |

Shared modules:

- `Outcomes`: `Option`, `Result`, and `Outcome`, with Python's exception kinds as `Error`;
- `Decimal`: decimal rendering of integers;
- `Readings`: sensor readings and the two temperature conversions;
- `Retries`: the bounded retry shared by the recursive `get_*` and `measure` methods.

The two motion-capturing revisions share the loop text
(securypi_app/peripherals/camera/motion_capturing.py:149-227 and
securypi_app/sensors/camera/motion_capturing.py:183-259 differ only in a
log message and in how the folder is made). `MotionLoop` therefore models
that loop once.

Where a Python method raises, the model returns `Fail(e)` or `Failure(e)`
and leaves the state as it is at the raise. Two kinds of raise are not
modelled, and "## Left out" names them: the capture thread's division by
the detection rate (`MotionLoop.Detector.Loop`), and a raising driver read
in the current weather station (`PeripheralWeatherStation.WeatherStation.GetTemperature`
and the other `get_*` members).

## Model

| member | source | states |
|---|---|---|
| MyCam.FpsEligible | securypi_app/peripherals/camera/mycam.py:90-93 | the eligible list holds exactly the modes whose fps reaches the request, and is no longer than the mode list |
| MyCam.FpsEligibleAppend | securypi_app/peripherals/camera/mycam.py:90-93 | filtering a concatenation is the concatenation of the filtered parts, so modes keep their list order |
| MyCam.LastEligibleIndex | securypi_app/peripherals/camera/mycam.py:95-97 | -1 or an index whose mode reaches the fps, with no later mode reaching it: the position of `fps_eligible[-1]` |
| MyCam.LastOfEligible | securypi_app/peripherals/camera/mycam.py:90-97 | the eligible list is empty exactly when no index is found; otherwise its last element is the mode at that index |
| MyCam.BestSensorMode | securypi_app/peripherals/camera/mycam.py:83-101 | IndexError exactly when no mode reaches the fps; a returned mode is one of the table's, reaches the fps, and is at least the requested size |
| MyCam.BestSensorModeChoice | securypi_app/peripherals/camera/mycam.py:83-101 | IndexError exactly when no mode reaches the fps; otherwise the last eligible mode if its size is lexicographically at least the resolution, else None |
| MyCam.GetBestSensorMode | securypi_app/peripherals/camera/mycam.py:83-101 | the append loop returns the result the selection rule prescribes |
| MyCam.CameraModule3Selections | tests/sensors/test_mycam.py:46-60 | the test table's selections on the Camera Module 3 modes, and IndexError when no mode reaches 200 fps |
| MyCam.LexicographicNotPerDimension | securypi_app/peripherals/camera/mock_camera_modules/mock_picamera2.py:107-113 | mode 1 (2304x1296) counts as at least 2000x1500 although its height is smaller |
| MyCam.LoresSize | securypi_app/peripherals/camera/mycam.py:148-154 | the stream size unless it exceeds main in width or height, then the main resolution; never larger than main |
| MyCam.ConfiguredLoresSize | securypi_app/peripherals/camera/mycam.py:37-39 | with the configured constants the lores size is 800x450 |
| MyCam.EffectiveFramerate | securypi_app/peripherals/camera/mycam.py:185-188 | None becomes 25, a value below 1 becomes 30, others are kept; the result is at least 1 |
| MyCam.FrameDuration | securypi_app/peripherals/camera/mycam.py:190-194 | the duration limits are an equal pair whose value times the framerate is one second in microseconds |
| MyCam.Camera.constructor | securypi_app/peripherals/camera/mock_camera_modules/mock_picamera2.py:97-122 | a camera with the given modes and default configuration, idle |
| MyCam.Camera.Create | securypi_app/peripherals/camera/mycam.py:56-77 | construction fails with IndexError exactly when sensor configuration does; otherwise main 1920x1080, lores 800x450, "Fast" noise reduction, 25 fps limits, idle |
| MyCam.Camera.ConfigureVideoSensor | securypi_app/peripherals/camera/mycam.py:103-131 | IndexError exactly when selection fails; a found mode sets output size and bit depth, None leaves them |
| MyCam.Camera.ConfigureVideoStreams | securypi_app/peripherals/camera/mycam.py:133-159 | main is set to the main resolution and lores to the clamped stream size, never larger than main |
| MyCam.Camera.GetCurrentResolution | securypi_app/peripherals/camera/mycam.py:161-167 | "main" and "lores" give their stream sizes, any other target the sensor output size |
| MyCam.Camera.SetNoiseReduction | securypi_app/peripherals/camera/mycam.py:174-182 | a known name sets its mapped enum value; an unknown name is a ValueError and sets nothing |
| MyCam.Camera.SetFramerate | securypi_app/peripherals/camera/mycam.py:184-196 | the duration limits become the equal pair for the clamped framerate |
| MyCam.Camera.IsRecording | securypi_app/peripherals/camera/mycam.py:198-199 | recording exactly when a recording encoder is held |
| MyCam.Camera.StartRecordingToFile | securypi_app/peripherals/camera/mycam.py:198-214 | a second start is "Recording already in progress." and changes nothing; otherwise an encoder for the path, stream and quality is held; recording afterwards in both cases |
| MyCam.Camera.StartDefaultRecording | securypi_app/peripherals/camera/mycam.py:216-228 | the path is under captures/recordings/ and the recording uses the given stream and quality (defaults "main" and LOW); a second start is refused unchanged |
| MyCam.Camera.StopRecordingToFile | securypi_app/peripherals/camera/mycam.py:230-234 | the encoder is released and the camera is idle, whatever it was before, so a second stop finds the state the first left |
| Streaming.AsciiByte | securypi_app/peripherals/camera/streaming.py:49-51 | an ASCII character encodes as its own code |
| Streaming.Ascii | securypi_app/peripherals/camera/streaming.py:49-51 | encoding a string gives one byte per character, and ASCII text reads back from its bytes unchanged |
| Streaming.Header | securypi_app/peripherals/camera/streaming.py:49-51 | the fixed delimiter-and-header prefix of a part is 51 bytes |
| Streaming.Crlf | securypi_app/peripherals/camera/streaming.py:49-52 | the line terminator is CR LF |
| Streaming.BlankLine | securypi_app/peripherals/camera/streaming.py:51 | the header block ends with CR LF CR LF |
| Streaming.LengthDigits | securypi_app/peripherals/camera/streaming.py:51 | the Content-Length value is a non-empty run of ASCII digits |
| Streaming.Part | securypi_app/peripherals/camera/streaming.py:49-52 | one yielded part: delimiter, content type, Content-Length of the frame, blank line, frame, CR LF; what it carries is stated by PartRoundTrip |
| Streaming.DigitRun | securypi_app/peripherals/camera/streaming.py:51 | the length of the maximal leading run of digit bytes |
| Streaming.ParsePart | securypi_app/peripherals/camera/streaming.py:49-52 | a reader of one part consumes input, so a stream reader terminates |
| Streaming.PartRoundTrip | securypi_app/peripherals/camera/streaming.py:49-52 | reading a part by its Content-Length recovers the frame exactly and leaves what follows untouched |
| Streaming.Stream | securypi_app/peripherals/camera/streaming.py:45-52 | the response body: the parts of the frames back to back |
| Streaming.ParseStream | securypi_app/peripherals/camera/streaming.py:45-52 | a client reading parts until the body is used up; StreamRoundTrip ties it to Stream |
| Streaming.StreamRoundTrip | securypi_app/peripherals/camera/streaming.py:45-52 | a stream of consecutive parts reads back as the frames in order |
| Streaming.PartDelimiters | securypi_app/blueprints/overview.py:24-25 | every part starts with the "--frame" delimiter of the declared boundary and ends with CR LF |
| Streaming.LatestWins | securypi_app/peripherals/camera/streaming.py:34-37 | after any non-empty sequence of writes the slot holds the last buffer |
| Streaming.StreamingOutput.constructor | securypi_app/peripherals/camera/streaming.py:30-32 | the slot starts empty |
| Streaming.StreamingOutput.Write | securypi_app/peripherals/camera/streaming.py:34-37 | the slot holds exactly the new buffer |
| Streaming.StreamingOutput.NextPart | securypi_app/peripherals/camera/streaming.py:46-52 | the next yielded part carries exactly the frame held in the slot |
| Streaming.Streaming.constructor | securypi_app/peripherals/camera/streaming.py:61-68 | one output object, no encoder, no timer |
| Streaming.Streaming.IsStreaming | securypi_app/peripherals/camera/streaming.py:70-71 | streaming exactly when a streaming encoder is held |
| Streaming.Streaming.StartCaptureStream | securypi_app/peripherals/camera/streaming.py:73-88 | an encoder is allocated only when none is held; any timer is cancelled and a fresh 300 s timer is the only live one; the same output object is returned |
| Streaming.Streaming.StopCaptureStream | securypi_app/peripherals/camera/streaming.py:90-98 | afterwards neither timer nor encoder is held and nothing is allocated |
| Streaming.StartTwice | securypi_app/peripherals/camera/streaming.py:77-86 | two starts allocate one encoder and arm two timers of which only the second is live |
| MotionLoop.ChangedCount | securypi_app/peripherals/camera/motion_capturing.py:224-225 | the changed-pixel count is at most the pixel count |
| MotionLoop.ChangeRatio | securypi_app/peripherals/camera/motion_capturing.py:219-227 | the change ratio lies in [0, 1] |
| MotionLoop.NoneChanged | securypi_app/peripherals/camera/motion_capturing.py:224-227 | the count is 0 exactly when no pixel changed by the threshold |
| MotionLoop.AllChanged | securypi_app/peripherals/camera/motion_capturing.py:224-227 | the count is the pixel count exactly when every pixel changed by the threshold |
| MotionLoop.CountSymmetric | securypi_app/peripherals/camera/motion_capturing.py:224-225 | swapping the frames does not change the count |
| MotionLoop.RatioSymmetric | securypi_app/peripherals/camera/motion_capturing.py:224-227 | swapping the frames does not change the ratio |
| MotionLoop.RatioExtremes | securypi_app/peripherals/camera/motion_capturing.py:224-227 | the ratio is 0 exactly when no pixel changed and 1 exactly when all did |
| MotionLoop.IdenticalFramesRatio | securypi_app/peripherals/camera/motion_capturing.py:222-227 | identical frames give ratio 0 at the default threshold 12 |
| MotionLoop.Detect | securypi_app/peripherals/camera/motion_capturing.py:183-200 | the motion and no-motion branches of a tick; StartRule, StopRule and MotionRefreshesLastDetected state their effect |
| MotionLoop.TickSpec | securypi_app/peripherals/camera/motion_capturing.py:166-211 | the first frame makes no decision; every tick makes the current frame the previous one |
| MotionLoop.Apply | securypi_app/peripherals/camera/mycam.py:198-206 | the camera state after a sequence of starts and stops, None on a start while recording or a stop while idle |
| MotionLoop.ApplyAppend | securypi_app/peripherals/camera/motion_capturing.py:184-210 | applying camera actions in two batches is applying them at once |
| MotionLoop.TickActionsValid | securypi_app/peripherals/camera/motion_capturing.py:183-210 | a tick's starts and stops never start while recording nor stop while idle, and end in the tick's recording state: at most one recording is open |
| MotionLoop.StartRule | securypi_app/peripherals/camera/motion_capturing.py:183-188 | an idle camera starts recording exactly when a previous frame exists and the ratio reaches the threshold |
| MotionLoop.StopRule | securypi_app/peripherals/camera/motion_capturing.py:194-200 | a recording stops for good exactly when the ratio is below threshold and no motion was seen for longer than the minimum length |
| MotionLoop.MotionRefreshesLastDetected | securypi_app/peripherals/camera/motion_capturing.py:183-193 | motion sets the last-detected time to now, recording or not; no motion leaves it |
| MotionLoop.RecordingAgeBounded | securypi_app/peripherals/camera/motion_capturing.py:203-210 | every start sets the recording start time to now; after a tick an open recording is no older than the maximum length |
| MotionLoop.FirstMotionStarts | securypi_app/peripherals/camera/motion_capturing.py:183-193 | on an idle camera, motion yields exactly one start with both times set to now |
| MotionLoop.Run | securypi_app/peripherals/camera/motion_capturing.py:167-211 | after a run of frames the previous frame is the last one |
| MotionLoop.RunActionsValid | securypi_app/peripherals/camera/motion_capturing.py:167-211 | over a whole run the camera actions are consistent and end in the run's recording state |
| MotionLoop.StillSceneNeverRecords | securypi_app/peripherals/camera/motion_capturing.py:173-211 | an unchanging scene never starts a recording |
| MotionLoop.Detector.constructor | securypi_app/peripherals/camera/motion_capturing.py:164-166 | the loop variables start at 0, 0 and no previous frame |
| MotionLoop.Detector.Step | securypi_app/peripherals/camera/motion_capturing.py:173-211 | one tick against the camera carries out the tick rule: new loop variables and recording state as the rule prescribes, new recordings to the given path at MEDIUM quality |
| MotionLoop.Detector.Exit | securypi_app/peripherals/camera/motion_capturing.py:213-217 | on the stop event a running recording is stopped |
| MotionLoop.Detector.Loop | securypi_app/peripherals/camera/motion_capturing.py:149-217 | the loop over frames ends in the loop variables of the run and with the camera idle |
| PeripheralMotionCapturing.AppConfig.constructor | securypi_app/peripherals/camera/motion_capturing.py:34-40 | a stored motion-capturing configuration, nothing saved |
| PeripheralMotionCapturing.AppConfig.Put | securypi_app/peripherals/camera/motion_capturing.py:63-67 | a field is written, and the file saved, only when the value differs |
| PeripheralMotionCapturing.MotionCapturing.constructor | securypi_app/peripherals/camera/motion_capturing.py:23-31 | the configuration is applied; a capture thread exists exactly when the configuration asks for capturing |
| PeripheralMotionCapturing.MotionCapturing.IsMotionCapturing | securypi_app/peripherals/camera/motion_capturing.py:51-52 | capturing exactly when the capture flag is on, whether or not a thread exists |
| PeripheralMotionCapturing.MotionCapturing.ApplyCapturingConfig | securypi_app/peripherals/camera/motion_capturing.py:33-49 | all five settings come from the configuration; capturing on (re)starts the loop; off changes no thread |
| PeripheralMotionCapturing.MotionCapturing.Start | securypi_app/peripherals/camera/motion_capturing.py:121-139 | RuntimeError when the camera records and the flag is off; otherwise an old thread is stopped first and exactly one new thread runs |
| PeripheralMotionCapturing.MotionCapturing.Stop | securypi_app/peripherals/camera/motion_capturing.py:141-147 | no thread: nothing changes; otherwise the event is set, the loop closes any recording, and no thread is left |
| PeripheralMotionCapturing.MotionCapturing.SetMotionCapturing | securypi_app/peripherals/camera/motion_capturing.py:55-67 | the code as written: only the flag changes among the settings; starts or stops only when the flag changes, with a replaced or stopped thread leaving the camera idle and no thread leaving the camera as it was; saves only a differing value; starts a thread even while a manual recording runs |
| PeripheralMotionCapturing.MotionCapturing.SetMotionCapturingChecked | securypi_app/peripherals/camera/motion_capturing.py:55-67 | with the guard evaluated before the flag is set, enabling during a manual recording is a RuntimeError that changes nothing; otherwise only the flag changes among the settings, and the threads and camera change as in `SetMotionCapturing` |
| PeripheralMotionCapturing.MotionCapturing.SetDetectionRate | securypi_app/peripherals/camera/motion_capturing.py:72-82 | the rate is stored and saved if it differs; the loop restarts only while the flag is on, and a restarted loop leaves the camera idle; without a thread the camera is untouched |
| PeripheralMotionCapturing.MotionCapturing.SetChangeRatioThreshold | securypi_app/peripherals/camera/motion_capturing.py:87-94 | the threshold is stored and saved if it differs; no restart |
| PeripheralMotionCapturing.MotionCapturing.SetMinRecordingLength | securypi_app/peripherals/camera/motion_capturing.py:100-107 | the minimum length is stored and saved if it differs; no restart |
| PeripheralMotionCapturing.MotionCapturing.SetMaxRecordingLength | securypi_app/peripherals/camera/motion_capturing.py:112-119 | the maximum length is stored and saved if it differs; no restart |
| LegacyMotionCapturing.MotionCapturing.constructor | securypi_app/sensors/camera/motion_capturing.py:84-92 | the defaults (off, 10, 0.001, 2, 60) are applied and no thread runs |
| LegacyMotionCapturing.MotionCapturing.IsMotionCapturing | securypi_app/sensors/camera/motion_capturing.py:109-110 | capturing exactly when a capture thread exists |
| LegacyMotionCapturing.MotionCapturing.ApplyCapturingConfig | securypi_app/sensors/camera/motion_capturing.py:94-107 | the settings are the module defaults; background capturing is off, so nothing starts |
| LegacyMotionCapturing.MotionCapturing.Start | securypi_app/sensors/camera/motion_capturing.py:152-170 | RuntimeError when the camera records and no thread exists; otherwise an old thread is stopped first and exactly one new thread runs |
| LegacyMotionCapturing.MotionCapturing.Stop | securypi_app/sensors/camera/motion_capturing.py:172-181 | no thread: nothing changes; otherwise the event is set, any recording is closed, and no thread is left |
| LegacyMotionCapturing.MotionCapturing.SetMotionCapturing | securypi_app/sensors/camera/motion_capturing.py:113-118 | enabling always (re)starts, disabling always stops, whatever the prior state; a running thread that is replaced or stopped leaves the camera idle |
| LegacyMotionCapturing.MotionCapturing.SetDetectionRate | securypi_app/sensors/camera/motion_capturing.py:123-128 | the rate is stored; the loop restarts only when a thread exists, leaving the camera idle; otherwise threads and camera are untouched |
| LegacyMotionCapturing.MotionCapturing.SetChangeRatioThreshold | securypi_app/sensors/camera/motion_capturing.py:133-135 | the threshold is stored and no thread changes |
| LegacyMotionCapturing.MotionCapturing.SetMinRecordingLength | securypi_app/sensors/camera/motion_capturing.py:141-143 | the minimum length is stored and no thread changes |
| LegacyMotionCapturing.MotionCapturing.SetMaxRecordingLength | securypi_app/sensors/camera/motion_capturing.py:148-150 | the maximum length is stored and no thread changes |
| Retries.Attempts | securypi_app/peripherals/measurements/weather_station.py:167-175 | a call with repeat r reads r+1 times at most, once at least |
| Retries.RetryFrom | securypi_app/peripherals/measurements/weather_station.py:167-175 | from attempt k: the result is the first successful attempt, every earlier one failed, and failure means all attempts were used |
| Retries.Retry | securypi_app/peripherals/measurements/weather_station.py:167-185 | the first non-None reading within repeat+1 reads; None exactly when all repeat+1 reads fail |
| Retries.FirstAttemptWins | securypi_app/peripherals/measurements/weather_station.py:170-171 | a first successful read is returned after one attempt |
| PeripheralWeatherStation.Sensor.constructor | securypi_app/peripherals/measurements/weather_station.py:155-161 | a sensor object of the given kind |
| PeripheralWeatherStation.Converted | securypi_app/peripherals/measurements/weather_station.py:208-211 | temperature is converted to Fahrenheit only when present and the unit is "F"; the keys and other values are kept |
| PeripheralWeatherStation.Present | securypi_app/peripherals/measurements/weather_station.py:213-217 | "N/A" exactly for None; a value is rounded |
| PeripheralWeatherStation.WeatherStation.constructor | securypi_app/peripherals/measurements/weather_station.py:127-137 | with the default flags: SHT30 for humidity and temperature (one object), QMP6988 for pressure |
| PeripheralWeatherStation.WeatherStation.InitSensors | securypi_app/peripherals/measurements/weather_station.py:143-165 | humidity is DHT22 if enabled else SHT30 if enabled else absent; pressure exists exactly when QMP6988 is enabled; temperature is the humidity object |
| PeripheralWeatherStation.WeatherStation.GetTemperature | securypi_app/peripherals/measurements/weather_station.py:167-175 | the first non-None reading within repeat+1 reads, None after repeat+1 failures, None with no read when the sensor is absent |
| PeripheralWeatherStation.WeatherStation.GetHumidity | securypi_app/peripherals/measurements/weather_station.py:177-185 | the first non-None reading within repeat+1 reads, None after repeat+1 failures, None with no read when the sensor is absent |
| PeripheralWeatherStation.WeatherStation.GetPressureAsWritten | securypi_app/peripherals/measurements/weather_station.py:187-195 | the code as written: after a failed pressure read the result is the humidity retry |
| PeripheralWeatherStation.WeatherStation.GetPressure | securypi_app/peripherals/measurements/weather_station.py:187-195 | corrected: the first non-None pressure reading within repeat+1 reads, None otherwise |
| PeripheralWeatherStation.WeatherStation.MeasureAsWritten | securypi_app/peripherals/measurements/weather_station.py:197-202 | the code as written: exactly the three keys, temperature and humidity from their retries, pressure from `get_pressure` as written with its humidity fallback |
| PeripheralWeatherStation.WeatherStation.Measure | securypi_app/peripherals/measurements/weather_station.py:197-202 | corrected: exactly the three keys, each from its own retry at the default repeat, pressure from the corrected retry |
| PeripheralWeatherStation.PresentValues | securypi_app/peripherals/measurements/weather_station.py:213-217 | the rewrite loop keeps the key set, turns exactly the None values into "N/A" and rounds every other value |
| PeripheralWeatherStation.WeatherStation.PresentMeasureOrNa | securypi_app/peripherals/measurements/weather_station.py:204-219 | the loop keeps the key set, maps exactly the None values to "N/A", and rounds the others, with temperature converted first under "F" |
| PeripheralWeatherStation.WeatherStation.MeasureAndLog | securypi_app/peripherals/measurements/weather_station.py:221-233 | log() is called exactly when some value is present; None exactly when it was called and returned false; otherwise the measurement |
| PeripheralWeatherStation.MeasurePressureAsWritten | securypi_app/peripherals/measurements/weather_station.py:187-202 | with a silent pressure sensor, `measure` as written reports the humidity sensor's 55.0 as pressure; the corrected one reports None |
| PeripheralWeatherStation.PressureFallsBackToHumidity | securypi_app/peripherals/measurements/weather_station.py:187-195 | with a silent pressure sensor the code as written returns the humidity value 55.0 as pressure; the corrected retry returns None |
| PeripheralMeasurementLogger.LookupOnLogger | securypi_app/peripherals/measurements/measurement_logger.py:10-93 | an attribute lookup on the logger fails with AttributeError exactly for names that are neither its methods nor the instance attributes it assigns |
| PeripheralMeasurementLogger.MeasureAndLogNotOnLogger | securypi_app/peripherals/measurements/measurement_logger.py:31 | `measure_and_log` is not an attribute of the logger |
| PeripheralMeasurementLogger.MeasurementLogger.constructor | securypi_app/peripherals/measurements/measurement_logger.py:12-19 | after applying the configuration one thread is logging every 30 s |
| PeripheralMeasurementLogger.MeasurementLogger.IsLogging | securypi_app/peripherals/measurements/measurement_logger.py:37-38 | logging exactly when a logging thread exists |
| PeripheralMeasurementLogger.MeasurementLogger.ApplyLoggingConfig | securypi_app/peripherals/measurements/measurement_logger.py:40-47 | interval 30 and background on; one start when idle, two (restart by the interval, then by the flag) when already logging |
| PeripheralMeasurementLogger.MeasurementLogger.SetLogInBackground | securypi_app/peripherals/measurements/measurement_logger.py:49-55 | afterwards logging exactly when the flag is on; on means one fresh thread |
| PeripheralMeasurementLogger.MeasurementLogger.SetLoggingInterval | securypi_app/peripherals/measurements/measurement_logger.py:60-65 | the interval is stored; a running logger restarts, an idle one is untouched; logging state unchanged |
| PeripheralMeasurementLogger.MeasurementLogger.StartLogging | securypi_app/peripherals/measurements/measurement_logger.py:67-82 | a running logger is stopped first; afterwards exactly one fresh thread runs and the stop event is clear |
| PeripheralMeasurementLogger.MeasurementLogger.StopLogging | securypi_app/peripherals/measurements/measurement_logger.py:84-93 | idle: nothing changes; logging: the event is set, the thread joined, and none is left |
| PeripheralMeasurementLogger.MeasurementLogger.LoggerAsWritten | securypi_app/peripherals/measurements/measurement_logger.py:21-35 | the code as written: the thread raises AttributeError before its first log or wait |
| PeripheralMeasurementLogger.MeasurementLogger.Logger | securypi_app/peripherals/measurements/measurement_logger.py:21-35 | corrected: every iteration logs through the station once and then waits the interval read in that iteration |
| PeripheralMeasurementLogger.StopTwiceStartTwice | tests/sensors/test_weather_station.py:74-80 | stopping twice then starting twice leaves exactly one logging thread |
| Readings.ConversionsInverse | securypi_app/peripherals/measurements/weather_station.py:235-243 | the two conversions are mutual inverses over the reals |
| Readings.CToFahrenheitMonotone | securypi_app/peripherals/measurements/weather_station.py:235-238 | the conversion preserves strict order both ways |
| Readings.ConversionFixedPoints | tests/sensors/test_weather_station.py:149-163 | 0↔32, 100↔212, -40↔-40, 20↔68, 37↔98.6 both ways |
| LegacyWeatherStation.ReadOrNone | securypi_app/sensors/weather_station.py:144-158 | a raising or missing read gives None, a value gives itself |
| LegacyWeatherStation.PairAttempt | securypi_app/sensors/weather_station.py:161-168 | one attempt succeeds exactly when both reads have values, and rounds both |
| LegacyWeatherStation.Measure | securypi_app/sensors/weather_station.py:160-173 | None exactly when none of the repeat+1 whole-pair attempts has both values |
| LegacyWeatherStation.MeasureOrNa | securypi_app/sensors/weather_station.py:175-187 | both fields "N/A" when measuring fails; otherwise the rounded pair with temperature converted under "F" |
| LegacyWeatherStation.MeasureAndLog | securypi_app/sensors/weather_station.py:189-200 | log() is called exactly when measuring succeeded; None exactly when measuring failed or log() returned false |
| LegacyWeatherStation.WeatherStation.constructor | securypi_app/sensors/weather_station.py:118-134 | the pin is stored and the sensor built on it; logging every 30 s in one thread |
| LegacyWeatherStation.WeatherStation.SetPin | securypi_app/sensors/weather_station.py:140-142 | the pin is stored and the station returned |
| LegacyWeatherStation.WeatherStation.IsLogging | securypi_app/sensors/weather_station.py:218-219 | logging exactly when a logging thread exists |
| LegacyWeatherStation.WeatherStation.ApplyLoggingConfig | securypi_app/sensors/weather_station.py:221-227 | interval 30, background on, exactly one fresh thread |
| LegacyWeatherStation.WeatherStation.SetLogInBackground | securypi_app/sensors/weather_station.py:229-235 | afterwards logging exactly when the flag is on |
| LegacyWeatherStation.WeatherStation.SetLoggingInterval | securypi_app/sensors/weather_station.py:240-244 | the interval is stored; a running logger restarts, an idle one is untouched |
| LegacyWeatherStation.WeatherStation.StartLogging | securypi_app/sensors/weather_station.py:246-261 | a running logger is stopped first; afterwards exactly one fresh thread runs |
| LegacyWeatherStation.WeatherStation.StopLogging | securypi_app/sensors/weather_station.py:263-272 | idle: nothing changes; logging: the event is set and no thread is left |
| LegacyWeatherStation.WeatherStation.Logger | securypi_app/sensors/weather_station.py:202-216 | every iteration measures and logs once and then waits the interval read in that iteration |
| WeatherSensor.PairAttempt | securypi_app/sensors/weather_sensor.py:67-71 | an attempt succeeds exactly when neither read raises, with the raw values |
| WeatherSensor.Measure | securypi_app/sensors/weather_sensor.py:62-79 | None exactly when every one of the repeat+1 attempts has a raising read |
| WeatherSensor.MeasureOrNa | securypi_app/sensors/weather_sensor.py:81-98 | both "N/A" when measuring fails; "F" converts a present temperature and is a TypeError on a None one; "C" keeps the values |
| WeatherSensor.MeasureAndLog | securypi_app/sensors/weather_sensor.py:100-118 | committed exactly after a successful measure; None exactly when measuring or the commit failed |
| WeatherSensor.FToCelsiusCall | securypi_app/sensors/weather_sensor.py:125-128 | the static method succeeds only with two arguments, converting the second |
| WeatherSensor.ConversionCallShapes | securypi_app/sensors/weather_sensor.py:120-128 | the sibling's one-argument call shape is a TypeError; with a dummy first argument it inverts `c_to_fahrenheit` |
| WeatherSensor.WeatherSensor.constructor | securypi_app/sensors/weather_sensor.py:34-42 | the pin is stored |
| WeatherSensor.WeatherSensor.SetPin | securypi_app/sensors/weather_sensor.py:49-52 | the pin is stored and the sensor returned |
| Sensor.Sensor.constructor | securypi_app/sensors/sensor.py:37-45 | the setters are chained: the pin is stored and the unit set only when it is "C" or "F" |
| Sensor.Sensor.SetPin | securypi_app/sensors/sensor.py:53-56 | the pin is stored and the sensor returned |
| Sensor.Sensor.SetTempUnit | securypi_app/sensors/sensor.py:61-65 | only "C" or "F" is accepted, anything else leaves the unit; the sensor is returned |
| Sensor.Sensor.GetTemperature | securypi_app/sensors/sensor.py:67-76 | a raising device first; then an unset unit is an AttributeError, "C" the raw reading, "F" the Fahrenheit value or a TypeError on None |
| Sensor.Sensor.GetHumidity | securypi_app/sensors/sensor.py:78-80 | the raw reading; a failure exactly when the device raises |
| Sensor.Sensor.Measure | securypi_app/sensors/sensor.py:82-96 | both readings when neither raises; both "N/A" exactly when one does |
| Sensor.Show | securypi_app/sensors/sensor.py:85-88 | a successful reading is never shown as "N/A" |
| Sensor.FahrenheitReading | securypi_app/sensors/sensor.py:72-73 | under "F" the reading is the Fahrenheit value, which converts back to the device's Celsius |
| Decimal.NatToString | securypi_app/peripherals/camera/streaming.py:51 | a length renders as a non-empty digit string, with a leading 0 only for 0 |
| Decimal.IntToString | securypi_app/services/string_parsing.py:20 | a bound renders with a leading '-' exactly when negative |
| Decimal.NatToStringRoundTrip | securypi_app/peripherals/camera/streaming.py:51 | the decimal digits read back as the length they render |
| Decimal.NatToStringInjective | securypi_app/peripherals/camera/streaming.py:51 | different lengths render differently |
| StringParsing.ValidateStrInputLen | securypi_app/services/string_parsing.py:11-27 | absent or empty input is "required", then too short, then too long; None exactly when present and min ≤ len ≤ max |
| StringParsing.ValidateStrUsername | securypi_app/services/string_parsing.py:30-34 | None exactly for 4..16 characters; otherwise one of the three "user name" messages |
| StringParsing.ValidateStrPassword | securypi_app/services/string_parsing.py:37-41 | None exactly for 8..64 characters; otherwise one of the three "password" messages |
| StringParsing.MessagesDistinct | securypi_app/services/string_parsing.py:16-25 | the three messages differ, so the message tells which check failed |
| StringParsing.TooShortQuotesBounds | securypi_app/services/string_parsing.py:19-21 | the bounds quoted in a "too short" message determine the bounds |

## Left out

- Threads, `Event.wait`, `Condition` waits and `notify_all`, `Timer` expiry, and `join` timeouts are concurrency. A thread is its identity, a join is taken to complete (including the 2.0 s join timeout in the current motion capturing), and a timer is its identity and length.
- `sleep` calls before the logging loops, and the loops' waits, are time. A trace records the interval each iteration waits.
- `gaussian_filter` smoothing and the `int16` cast are floating-point library numerics. Frames are equal-length integer sequences taken as already smoothed.
- `time.time()` is the clock. One `now` per tick stands for the several reads of the clock within one tick.
- `timed_filename` and the folder helpers are abstract name generators. The recording path is a parameter.
- Python's `round(x, n)` and the `int(round(1/fps*1e6))` microsecond duration are float rounding. Rounding is a parameter, and `MyCam.FrameDuration` is exact over the reals.
- Picamera2, its encoders and outputs, and `capture_picture` are hardware wrappers. The camera's state is the fields the wrapper reads and writes.
- Sensor drivers are hardware wrappers, so each read is an oracle. In the current weather station the oracle gives a number or None; the `get_*` lines below say which driver reads can raise instead. The unbound `hum` in the DHT22 driver is therefore not part of this model.
- `Measurement.log` and the database session are ORM persistence. Their result is an abstract boolean, with no assumption about its polarity.
- The `repeat` argument of the current `measure`, which it does not pass on, is dropped. The model uses the default 5 of each `get_*`.
- The singleton `__new__`, `get_instance` and the `_initialized` guard are not modelled. Each object is constructed once.
- `MyPicamera2.__init__` building its `Streaming` and `MotionCapturing` extensions is left out. The extensions are constructed separately around a camera.
- The current station's `measurement_logger` field is left out. The logger holds its station, which avoids a cyclic module import.
- Debug and status `print` calls are output only.
- MotionLoop.Detector.Loop: takes no detection rate. Both revisions compute `detection_timeout = 1 / self._detection_rate` before the first frame (securypi_app/peripherals/camera/motion_capturing.py:162, securypi_app/sensors/camera/motion_capturing.py:197). A rate of 0, which both `SetDetectionRate` models accept, makes the capture thread raise ZeroDivisionError there while the capturing state still reports on; a negative rate makes every wait at line 213 (line 245 in the older revision) return at once. The model's loop captures normally in both cases.
- A running motion loop reading its settings live is not modelled. `MotionLoop.Detector` runs with the settings that were current when it started.
- The other copies of the frame generator in other files are textually the same as streaming.py, so that one model covers them.
- PeripheralWeatherStation.WeatherStation.GetTemperature: the read oracle gives a number or None and never raises. With the DHT22 driver, `float(self._sensor.temperature)` (securypi_app/peripherals/measurements/sensors/sensor_dht22.py:36) raises TypeError on a None from the library and lets the library's own errors through. `get_temperature` (securypi_app/peripherals/measurements/weather_station.py:167-175) does not catch, so such a raise ends the retry and leaves `measure`, `present_measure_or_na` and `measure_and_log`, which also ends the logger thread. The default SHT30 driver catches every exception and returns None (sensor_sht30.py:30-37), which the oracle does model.
- PeripheralWeatherStation.WeatherStation.GetHumidity: the read oracle never raises. With the DHT22 driver, `float(self._sensor.humidity)` (securypi_app/peripherals/measurements/sensors/sensor_dht22.py:39) raises as described for `GetTemperature`, and the raise leaves `get_humidity` (weather_station.py:177-185) and everything that calls it. The SHT30 driver catches (sensor_sht30.py:39-46).
- PeripheralWeatherStation.WeatherStation.GetPressure: the read oracle never raises. The QMP6988 driver calls `self._sensor.read()` without a try (securypi_app/peripherals/measurements/sensors/sensor_qmp6988.py:38), so an I2C error leaves `get_pressure` (weather_station.py:187-195), `measure`, `present_measure_or_na` and `measure_and_log` as a raise, where the model returns the dictionary.
- PeripheralWeatherStation.WeatherStation.GetPressureAsWritten: the same unguarded QMP6988 read (sensor_qmp6988.py:38), and the humidity reads of its fallback, are taken never to raise.
- PeripheralWeatherStation.WeatherStation.Measure: takes pressure from the corrected `GetPressure`, not from `get_pressure` as written; `MeasureAsWritten` is the source's `measure`, and `MeasurePressureAsWritten` shows where the two differ.
- PeripheralWeatherStation.WeatherStation.PresentMeasureOrNa: presents the corrected `Measure`, so the pressure it shows never comes from the humidity fallback at line 193.
- PeripheralWeatherStation.WeatherStation.MeasureAndLog: logs and returns the corrected `Measure`, so the pressure it stores never comes from the humidity fallback at line 193.
- PeripheralMeasurementLogger.LookupOnLogger: knows only the attributes the class defines, not those every Python object inherits from `object`.
- Streaming.AsciiByte: characters outside ASCII map to '?', which is not what Python's `encode()` does. The framer only encodes ASCII text.
- The web layer, configuration file handling (`AppConfig` is a stored record with a save counter), and authentication are outside the core.

## Findings

| source | as written | input that shows it | evidently intended | confidence | as-written member | corrected member |
|---|---|---|---|---|---|---|
| securypi_app/peripherals/measurements/measurement_logger.py:31 | the logging thread calls `self.measure_and_log()`, which `MeasurementLogger` does not define, so the thread dies with AttributeError before any log while `is_logging()` stays true | starting the logger, which the constructor does | call the station's `measure_and_log` each iteration | not executed | PeripheralMeasurementLogger.MeasurementLogger.LoggerAsWritten | PeripheralMeasurementLogger.MeasurementLogger.Logger |
| securypi_app/peripherals/measurements/weather_station.py:193 | a failed pressure read retries with `get_humidity(repeat - 1)`, so the humidity value is returned as pressure | pressure reads None, humidity reads 55.0: `get_pressure()` is 55.0 | retry with `get_pressure(repeat - 1)` | not executed | PeripheralWeatherStation.WeatherStation.GetPressureAsWritten | PeripheralWeatherStation.WeatherStation.GetPressure |
| securypi_app/peripherals/camera/motion_capturing.py:57-59 | the capture flag is set before `start()` runs, so start's guard against a running manual recording (line 126) can never fire from here | camera recording, flag off, `set_motion_capturing(True)`: a capture thread starts beside the recording | check the guard before the flag changes and refuse | not executed | PeripheralMotionCapturing.MotionCapturing.SetMotionCapturing | PeripheralMotionCapturing.MotionCapturing.SetMotionCapturingChecked |
