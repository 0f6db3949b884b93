/**
 * The sensor catalog: the device families, the sixteen categories, the
 * generated computer-vision descriptors and `ALL_SENSORS`, the concatenation
 * of every category's descriptors in category order.
 */
module SensorCatalog {
  import opened Wrappers
  import opened SensorDescription
  import Text

  /** `DEVICE_FAMILIES` */
  const DeviceFamilies: seq<string> := ["doorbells", "stickup_cams", "chimes", "other"]

  /** `SENSOR_CATEGORIES`, in order. */
  const SensorCategories: seq<string> := [
    "health", "power", "firmware", "video", "audio", "motion", "cv_detection", "cv_paid",
    "other_paid", "notifications", "recording", "floodlight", "radar", "local_processing",
    "features", "device_status"
  ]

  /** `CV_DETECTION_TYPES`, in order. */
  const CvDetectionTypes: seq<string> := [
    "human", "motion", "other_motion", "loitering", "moving_vehicle", "vehicle", "animal",
    "package_delivery", "package_pickup", "unverified_motion", "motion_stop"
  ]

  /** The three settings generated for each detection type, in order. */
  const CvSettings: seq<string> := ["enabled", "mode", "notification"]

  /** The descriptor generated for one detection type and one of its settings. */
  function CvDescriptor(detectionType: string, setting: string): Descriptor
  {
    Descriptor("cv_" + detectionType + "_" + setting, "cv_detection",
      "settings.cv_settings.detection_types." + detectionType + "." + setting, None)
  }

  /** The three descriptors of one detection type. */
  function CvDescriptorsFor(detectionType: string): seq<Descriptor>
  {
    [CvDescriptor(detectionType, "enabled"), CvDescriptor(detectionType, "mode"), CvDescriptor(detectionType, "notification")]
  }

  /** Three descriptors per detection type, in the order of the types. */
  function CvDescriptorsOf(types: seq<string>): (r: seq<Descriptor>)
    ensures |r| == 3 * |types|
  {
    if types == [] then []
    else CvDescriptorsOf(types[..|types| - 1]) + CvDescriptorsFor(types[|types| - 1])
  }

  /** Descriptor `i` is setting `i % 3` of type `i / 3`. */
  lemma {:induction false} CvDescriptorsAt(types: seq<string>, i: int)
    requires 0 <= i < 3 * |types|
    ensures CvDescriptorsOf(types)[i] == CvDescriptor(types[i / 3], CvSettings[i % 3])
  {
    var init := types[..|types| - 1];
    if i < 3 * |init| {
      CvDescriptorsAt(init, i);
      assert types[i / 3] == init[i / 3];
    } else {
      var j := i - 3 * |init|;
      assert i / 3 == |init| && i % 3 == j by {
        assert i == 3 * |init| + j && 0 <= j < 3;
      }
    }
  }

  /** `_create_cv_detection_sensors`: append the three descriptors of each type in turn. */
  method CreateCvDetectionSensors() returns (sensors: seq<Descriptor>)
    ensures |sensors| == 3 * |CvDetectionTypes|
    ensures forall i :: 0 <= i < |sensors| ==>
      sensors[i].key == "cv_" + CvDetectionTypes[i / 3] + "_" + CvSettings[i % 3]
      && sensors[i].attrPath == "settings.cv_settings.detection_types." + CvDetectionTypes[i / 3] + "." + CvSettings[i % 3]
      && sensors[i].category == "cv_detection"
      && sensors[i].valueFn.None?
    ensures sensors == CvDescriptorsOf(CvDetectionTypes)
  {
    sensors := GenerateCvDescriptors(CvDetectionTypes);
    forall i | 0 <= i < |sensors|
      ensures sensors[i] == CvDescriptor(CvDetectionTypes[i / 3], CvSettings[i % 3])
    {
      CvDescriptorsAt(CvDetectionTypes, i);
    }
  }

  /** The loop of `_create_cv_detection_sensors`, over any list of types. */
  method GenerateCvDescriptors(types: seq<string>) returns (sensors: seq<Descriptor>)
    ensures sensors == CvDescriptorsOf(types)
  {
    sensors := [];
    for k := 0 to |types|
      invariant sensors == CvDescriptorsOf(types[..k])
    {
      assert types[..k + 1][..k] == types[..k];
      var t := types[k];
      sensors := sensors + [CvDescriptor(t, "enabled"), CvDescriptor(t, "mode"), CvDescriptor(t, "notification")];
    }
    assert types[..|types|] == types;
  }

  /** `HEALTH_SENSORS`, const.py:133-250. */
  const HealthSensors: seq<Descriptor> := [
    Descriptor("rssi", "health", "health.rssi", None),
    Descriptor("rssi_category", "health", "health.rssi_category", None),
    Descriptor("connected", "health", "health.connected", None),
    Descriptor("packet_loss", "health", "health.packet_loss", None),
    Descriptor("packet_loss_category", "health", "health.packet_loss_category", None),
    Descriptor("bandwidth", "health", "health.bandwidth", None),
    Descriptor("current_bandwidth_mb", "health", "health.current_bandwidth_mb", None),
    Descriptor("egress_tx_rate", "health", "health.egress_tx_rate", Some(EgressTxRate)),
    Descriptor("egress_tx_rate_category", "health", "health.egress_tx_rate_category", None),
    Descriptor("wifi_channel", "health", "health.channel", None),
    Descriptor("network_connection_value", "health", "health.network_connection_value", None),
    Descriptor("sidewalk_connection", "health", "health.sidewalk_connection", None),
    Descriptor("uptime_sec", "health", "health.uptime_sec", None),
    Descriptor("uptime_formatted", "health", "health.uptime_sec", Some(UptimeFormatted)),
    Descriptor("last_update_time", "health", "health.last_update_time", Some(LastUpdateTime)),
    Descriptor("wifi_is_ring_network", "health", "health.wifi_is_ring_network", None)
  ]

  /** `POWER_SENSORS`, const.py:254-342. */
  const PowerSensors: seq<Descriptor> := [
    Descriptor("battery_percentage", "power", "health.battery_percentage", None),
    Descriptor("battery_percentage_category", "power", "health.battery_percentage_category", None),
    Descriptor("battery_voltage", "power", "health.battery_voltage", None),
    Descriptor("battery_voltage_category", "power", "health.battery_voltage_category", None),
    Descriptor("battery_present", "power", "health.battery_present", None),
    Descriptor("battery_save", "power", "health.battery_save", None),
    Descriptor("battery_error", "power", "health.battery_error", None),
    Descriptor("ac_power", "power", "health.ac_power", Some(AcPower)),
    Descriptor("transformer_voltage", "power", "health.transformer_voltage", None),
    Descriptor("transformer_voltage_category", "power", "health.transformer_voltage_category", None),
    Descriptor("ext_power_state", "power", "health.ext_power_state", None),
    Descriptor("run_mode", "power", "health.run_mode", None),
    Descriptor("pref_run_mode", "power", "health.pref_run_mode", None)
  ]

  /** `FIRMWARE_SENSORS`, const.py:346-373. */
  const FirmwareSensors: seq<Descriptor> := [
    Descriptor("firmware_version", "firmware", "health.firmware_version", None),
    Descriptor("firmware_version_status", "firmware", "health.firmware_version_status", None),
    Descriptor("ota_status", "firmware", "health.ota_status", None),
    Descriptor("firmware_avg_bitrate", "firmware", "health.firmware_avg_bitrate", Some(FirmwareAvgBitrate))
  ]

  /** `VIDEO_SENSORS`, const.py:377-455. */
  const VideoSensors: seq<Descriptor> := [
    Descriptor("vod_enabled", "video", "health.vod_enabled", None),
    Descriptor("vod_status", "video", "settings.vod_status", None),
    Descriptor("vod_suspended", "video", "settings.vod_suspended", None),
    Descriptor("stream_resolution", "video", "health.stream_resolution", None),
    Descriptor("live_view_preset_profile", "video", "settings.live_view_preset_profile", None),
    Descriptor("live_view_disabled", "video", "settings.live_view_disabled", None),
    Descriptor("extended_live_view", "video", "settings.extended_live_view", None),
    Descriptor("exposure_control", "video", "settings.exposure_control", None),
    Descriptor("preroll_enabled", "video", "settings.preroll_enabled", None),
    Descriptor("max_resolution_mode", "video", "settings.max_resolution_mode", None),
    Descriptor("encryption_enabled", "video", "settings.video_settings.encryption_enabled", None),
    Descriptor("hevc_enabled", "video", "settings.video_settings.hevc_enabled", None),
    Descriptor("max_digital_zoom_level", "video", "features.video_rendering.max_digital_zoom_level", None)
  ]

  /** `AUDIO_SENSORS`, const.py:459-491. */
  const AudioSensors: seq<Descriptor> := [
    Descriptor("enable_audio_recording", "audio", "settings.enable_audio_recording", None),
    Descriptor("doorbell_volume", "audio", "settings.doorbell_volume", None),
    Descriptor("voice_volume", "audio", "settings.voice_volume", None),
    Descriptor("chime_enable", "audio", "settings.chime_settings.enable", None),
    Descriptor("chime_duration", "audio", "settings.chime_settings.duration", None)
  ]

  /** `MOTION_SENSORS`, const.py:495-545. */
  const MotionSensors: seq<Descriptor> := [
    Descriptor("motion_detection_enabled", "motion", "settings.motion_detection_enabled", None),
    Descriptor("advanced_motion_detection_enabled", "motion", "settings.advanced_motion_detection_enabled", None),
    Descriptor("advanced_motion_detection_human_only_mode", "motion", "settings.advanced_motion_detection_human_only_mode", None),
    Descriptor("people_detection_eligible", "motion", "settings.people_detection_eligible", None),
    Descriptor("motion_snooze_preset_profile", "motion", "settings.motion_snooze_preset_profile", None),
    Descriptor("loitering_threshold", "motion", "settings.loitering_threshold", None),
    Descriptor("advanced_motion_zones_enabled", "motion", "settings.advanced_motion_zones_enabled", None),
    Descriptor("pir_sensitivity_1", "motion", "settings.pir_sensitivity_1", None)
  ]

  /** `CV_THRESHOLD_SENSORS`, const.py:615-635. */
  const CvThresholdSensors: seq<Descriptor> := [
    Descriptor("cv_threshold_loitering", "cv_detection", "settings.cv_settings.threshold.loitering", None),
    Descriptor("cv_threshold_package_delivery", "cv_detection", "settings.cv_settings.threshold.package_delivery", None),
    Descriptor("natural_language_search_enabled", "cv_detection", "settings.cv_settings.search_types.natural_language_search.enabled", None)
  ]

  /** `CV_PAID_SENSORS`, const.py:639-723. */
  const CvPaidSensors: seq<Descriptor> := [
    Descriptor("paid_human", "cv_paid", "settings.cv_paid_features.human", None),
    Descriptor("paid_motion", "cv_paid", "settings.cv_paid_features.motion", None),
    Descriptor("paid_other_motion", "cv_paid", "settings.cv_paid_features.other_motion", None),
    Descriptor("paid_loitering", "cv_paid", "settings.cv_paid_features.loitering", None),
    Descriptor("paid_vehicle", "cv_paid", "settings.cv_paid_features.vehicle", None),
    Descriptor("paid_animal", "cv_paid", "settings.cv_paid_features.animal", None),
    Descriptor("paid_package_delivery", "cv_paid", "settings.cv_paid_features.package_delivery", None),
    Descriptor("paid_package_pickup", "cv_paid", "settings.cv_paid_features.package_pickup", None),
    Descriptor("paid_baby_cry", "cv_paid", "settings.cv_paid_features.baby_cry", None),
    Descriptor("paid_car_alarm", "cv_paid", "settings.cv_paid_features.car_alarm", None),
    Descriptor("paid_co2_smoke_alarm", "cv_paid", "settings.cv_paid_features.co2_smoke_alarm", None),
    Descriptor("paid_dog_bark", "cv_paid", "settings.cv_paid_features.dog_bark", None),
    Descriptor("paid_glass_break", "cv_paid", "settings.cv_paid_features.glass_break", None),
    Descriptor("paid_general_sound", "cv_paid", "settings.cv_paid_features.general_sound", None)
  ]

  /** `OTHER_PAID_SENSORS`, const.py:727-787. */
  const OtherPaidSensors: seq<Descriptor> := [
    Descriptor("paid_alexa_concierge", "other_paid", "settings.other_paid_features.alexa_concierge", None),
    Descriptor("paid_sheila_cv", "other_paid", "settings.other_paid_features.sheila_cv", None),
    Descriptor("paid_sheila_recording", "other_paid", "settings.other_paid_features.sheila_recording", None),
    Descriptor("paid_extended_live_view", "other_paid", "settings.other_paid_features.extended_live_view", None),
    Descriptor("paid_recording_24x7", "other_paid", "settings.other_paid_features.recording_24x7", None),
    Descriptor("paid_natural_language_search", "other_paid", "settings.other_paid_features.natural_language_search", None),
    Descriptor("paid_multicam_live_view", "other_paid", "settings.other_paid_features.multicam_live_view", None),
    Descriptor("paid_daily_digest", "other_paid", "settings.other_paid_features.daily_digest", None),
    Descriptor("paid_package_protection", "other_paid", "settings.other_paid_features.package_protection", None),
    Descriptor("paid_critical_alerts", "other_paid", "settings.other_paid_features.critical_alerts", None)
  ]

  /** `NOTIFICATION_SENSORS`, const.py:791-821. */
  const NotificationSensors: seq<Descriptor> := [
    Descriptor("enable_rich_notifications", "notifications", "settings.enable_rich_notifications", None),
    Descriptor("rich_notifications_billing_eligible", "notifications", "settings.rich_notifications_billing_eligible", None),
    Descriptor("rich_notifications_face_crop_enabled", "notifications", "settings.rich_notifications_face_crop_enabled", None),
    Descriptor("rich_notifications_scene_source", "notifications", "settings.rich_notifications_scene_source", None),
    Descriptor("rich_notifications_eligible", "notifications", "features.rich_notifications_eligible", None)
  ]

  /** `RECORDING_SENSORS`, const.py:825-871. */
  const RecordingSensors: seq<Descriptor> := [
    Descriptor("user_specified_recording_ttl", "recording", "settings.user_specified_recording_ttl", None),
    Descriptor("lite_24x7_subscribed", "recording", "settings.lite_24x7.subscribed", None),
    Descriptor("lite_24x7_enabled", "recording", "settings.lite_24x7.enabled", None),
    Descriptor("lite_24x7_frequency_secs", "recording", "settings.lite_24x7.frequency_secs", None),
    Descriptor("lite_24x7_resolution_p", "recording", "settings.lite_24x7.resolution_p", None),
    Descriptor("lite_24x7_footage_ttl", "recording", "settings.lite_24x7_footage_ttl", None),
    Descriptor("offline_motion_enabled", "recording", "settings.offline_motion_event_settings.enabled", None)
  ]

  /** `FLOODLIGHT_SENSORS`, const.py:875-907. */
  const FloodlightSensors: seq<Descriptor> := [
    Descriptor("floodlight_on", "floodlight", "health.floodlight_on", None),
    Descriptor("white_led_on", "floodlight", "health.white_led_on", None),
    Descriptor("floodlight_duration", "floodlight", "settings.floodlight_settings.duration", None),
    Descriptor("floodlight_brightness", "floodlight", "settings.floodlight_settings.brightness", None),
    Descriptor("floodlight_always_on", "floodlight", "settings.floodlight_settings.always_on", None)
  ]

  /** `RADAR_SENSORS`, const.py:911-936. */
  const RadarSensors: seq<Descriptor> := [
    Descriptor("birds_eye_view_enabled", "radar", "settings.radar_settings.birds_eye_view_enabled", None),
    Descriptor("bez_feature_enabled", "radar", "settings.radar_settings.bez_feature_enabled", None),
    Descriptor("bez_filtering_enabled", "radar", "settings.radar_settings.bez_filtering_enabled", None),
    Descriptor("installation_height", "radar", "settings.radar_settings.installation_height", None)
  ]

  /** `LOCAL_PROCESSING_SENSORS`, const.py:940-964. */
  const LocalProcessingSensors: seq<Descriptor> := [
    Descriptor("sheila_cv_processing_enabled", "local_processing", "settings.sheila_settings.cv_processing_enabled", None),
    Descriptor("sheila_local_storage_enabled", "local_processing", "settings.sheila_settings.local_storage_enabled", None),
    Descriptor("sheila_camera_eligible", "local_processing", "features.sheila_camera_eligible", None),
    Descriptor("sheila_camera_processing_eligible", "local_processing", "features.sheila_camera_processing_eligible", None)
  ]

  /** `FEATURE_SENSORS`, const.py:968-1022. */
  const FeatureSensors: seq<Descriptor> := [
    Descriptor("cfes_eligible", "features", "features.cfes_eligible", None),
    Descriptor("motions_enabled", "features", "features.motions_enabled", None),
    Descriptor("show_recordings", "features", "features.show_recordings", None),
    Descriptor("show_vod_settings", "features", "features.show_vod_settings", None),
    Descriptor("recording_mode", "features", "features.video_recording.recording_mode", None),
    Descriptor("recording_enabled", "features", "features.video_recording.recording_enabled", None),
    Descriptor("recording_state", "features", "features.video_recording.recording_state", None),
    Descriptor("recording_24x7_eligible", "features", "features.recording_24x7_eligible", None),
    Descriptor("dynamic_network_switching_eligible", "features", "features.dynamic_network_switching_eligible", None)
  ]

  /** `DEVICE_STATUS_SENSORS`, const.py:1026-1074. */
  const DeviceStatusSensors: seq<Descriptor> := [
    Descriptor("night_mode_on", "device_status", "health.night_mode_on", None),
    Descriptor("siren_on", "device_status", "health.siren_on", None),
    Descriptor("hatch_open", "device_status", "health.hatch_open", None),
    Descriptor("stolen", "device_status", "stolen", None),
    Descriptor("owned", "device_status", "owned", None),
    Descriptor("subscribed", "device_status", "subscribed", None),
    Descriptor("is_sidewalk_gateway", "device_status", "is_sidewalk_gateway", None),
    Descriptor("device_kind", "device_status", "kind", None)
  ]

  /** Position in `ALL_SENSORS` of each literal key; -1 for any other string. */
  function LiteralKeyPosition(key: string): int
  {
    match |key|
    case 4 => (match key
      case "rssi" => 0
      case _ => -1)
    case 5 => (match key
      case "owned" => 157
      case _ => -1)
    case 6 => (match key
      case "stolen" => 156
      case _ => -1)
    case 8 => (match key
      case "ac_power" => 23
      case "run_mode" => 27
      case "siren_on" => 154
      case _ => -1)
    case 9 => (match key
      case "connected" => 2
      case "bandwidth" => 5
      case _ => -1)
    case 10 => (match key
      case "uptime_sec" => 12
      case "ota_status" => 31
      case "vod_status" => 34
      case "paid_human" => 95
      case "hatch_open" => 155
      case "subscribed" => 158
      case _ => -1)
    case 11 => (match key
      case "packet_loss" => 3
      case "vod_enabled" => 33
      case "paid_motion" => 96
      case "paid_animal" => 100
      case "device_kind" => 160
      case _ => -1)
    case 12 => (match key
      case "wifi_channel" => 9
      case "battery_save" => 21
      case "hevc_enabled" => 44
      case "voice_volume" => 48
      case "chime_enable" => 49
      case "paid_vehicle" => 99
      case "white_led_on" => 132
      case _ => -1)
    case 13 => (match key
      case "rssi_category" => 1
      case "battery_error" => 22
      case "pref_run_mode" => 28
      case "vod_suspended" => 35
      case "paid_baby_cry" => 103
      case "paid_dog_bark" => 106
      case "floodlight_on" => 131
      case "cfes_eligible" => 144
      case "night_mode_on" => 153
      case _ => -1)
    case 14 => (match key
      case "egress_tx_rate" => 7
      case "chime_duration" => 50
      case "paid_loitering" => 98
      case "paid_car_alarm" => 104
      case "paid_sheila_cv" => 110
      case "recording_mode" => 148
      case _ => -1)
    case 15 => (match key
      case "battery_voltage" => 18
      case "battery_present" => 20
      case "ext_power_state" => 26
      case "preroll_enabled" => 41
      case "doorbell_volume" => 47
      case "motions_enabled" => 145
      case "show_recordings" => 146
      case "recording_state" => 150
      case _ => -1)
    case 16 => (match key
      case "uptime_formatted" => 13
      case "last_update_time" => 14
      case "firmware_version" => 29
      case "exposure_control" => 40
      case "paid_glass_break" => 107
      case _ => -1)
    case 17 => (match key
      case "stream_resolution" => 36
      case "pir_sensitivity_1" => 58
      case "paid_other_motion" => 97
      case "paid_daily_digest" => 116
      case "lite_24x7_enabled" => 126
      case "show_vod_settings" => 147
      case "recording_enabled" => 149
      case _ => -1)
    case 18 => (match key
      case "battery_percentage" => 16
      case "live_view_disabled" => 38
      case "extended_live_view" => 39
      case "encryption_enabled" => 43
      case "paid_general_sound" => 108
      case _ => -1)
    case 19 => (match key
      case "sidewalk_connection" => 11
      case "transformer_voltage" => 24
      case "max_resolution_mode" => 42
      case "loitering_threshold" => 56
      case "paid_package_pickup" => 102
      case "paid_recording_24x7" => 113
      case "floodlight_duration" => 133
      case "bez_feature_enabled" => 137
      case "installation_height" => 139
      case "is_sidewalk_gateway" => 159
      case _ => -1)
    case 20 => (match key
      case "packet_loss_category" => 4
      case "current_bandwidth_mb" => 6
      case "wifi_is_ring_network" => 15
      case "firmware_avg_bitrate" => 32
      case "paid_co2_smoke_alarm" => 105
      case "paid_alexa_concierge" => 109
      case "paid_critical_alerts" => 118
      case "lite_24x7_subscribed" => 125
      case "floodlight_always_on" => 135
      case _ => -1)
    case 21 => (match key
      case "paid_package_delivery" => 101
      case "paid_sheila_recording" => 111
      case "lite_24x7_footage_ttl" => 129
      case "floodlight_brightness" => 134
      case "bez_filtering_enabled" => 138
      case _ => -1)
    case 22 => (match key
      case "max_digital_zoom_level" => 45
      case "enable_audio_recording" => 46
      case "cv_threshold_loitering" => 92
      case "lite_24x7_resolution_p" => 128
      case "offline_motion_enabled" => 130
      case "birds_eye_view_enabled" => 136
      case "sheila_camera_eligible" => 142
      case _ => -1)
    case 23 => (match key
      case "egress_tx_rate_category" => 8
      case "firmware_version_status" => 30
      case "paid_extended_live_view" => 112
      case "paid_multicam_live_view" => 115
      case "paid_package_protection" => 117
      case "recording_24x7_eligible" => 151
      case _ => -1)
    case 24 => (match key
      case "network_connection_value" => 10
      case "battery_voltage_category" => 19
      case "live_view_preset_profile" => 37
      case "motion_detection_enabled" => 51
      case "lite_24x7_frequency_secs" => 127
      case _ => -1)
    case 25 => (match key
      case "people_detection_eligible" => 54
      case "enable_rich_notifications" => 119
      case _ => -1)
    case 27 => (match key
      case "battery_percentage_category" => 17
      case "rich_notifications_eligible" => 123
      case _ => -1)
    case 28 => (match key
      case "transformer_voltage_category" => 25
      case "motion_snooze_preset_profile" => 55
      case "paid_natural_language_search" => 114
      case "user_specified_recording_ttl" => 124
      case "sheila_cv_processing_enabled" => 140
      case "sheila_local_storage_enabled" => 141
      case _ => -1)
    case 29 => (match key
      case "advanced_motion_zones_enabled" => 57
      case "cv_threshold_package_delivery" => 93
      case _ => -1)
    case 31 => (match key
      case "natural_language_search_enabled" => 94
      case "rich_notifications_scene_source" => 122
      case _ => -1)
    case 33 => (match key
      case "advanced_motion_detection_enabled" => 52
      case "sheila_camera_processing_eligible" => 143
      case _ => -1)
    case 34 => (match key
      case "dynamic_network_switching_eligible" => 152
      case _ => -1)
    case 35 => (match key
      case "rich_notifications_billing_eligible" => 120
      case _ => -1)
    case 36 => (match key
      case "rich_notifications_face_crop_enabled" => 121
      case _ => -1)
    case 41 => (match key
      case "advanced_motion_detection_human_only_mode" => 53
      case _ => -1)
    case _ => -1
  }

  lemma HealthSensorsFacts0()
    ensures forall i :: 0 <= i < 3 ==> DescriptorFacts(HealthSensors[i], "health", 0 + i)
  {
    forall i | 0 <= i < 3 ensures DescriptorFacts(HealthSensors[i], "health", 0 + i) {
      if i == 0 { assert HealthSensors[0] == Descriptor("rssi", "health", "health.rssi", None); }
      else if i == 1 { assert HealthSensors[1] == Descriptor("rssi_category", "health", "health.rssi_category", None); }
      else if i == 2 { assert HealthSensors[2] == Descriptor("connected", "health", "health.connected", None); }
    }
  }

  lemma HealthSensorsFacts1()
    ensures forall i :: 3 <= i < 6 ==> DescriptorFacts(HealthSensors[i], "health", 0 + i)
  {
    forall i | 3 <= i < 6 ensures DescriptorFacts(HealthSensors[i], "health", 0 + i) {
      if i == 3 { assert HealthSensors[3] == Descriptor("packet_loss", "health", "health.packet_loss", None); }
      else if i == 4 { assert HealthSensors[4] == Descriptor("packet_loss_category", "health", "health.packet_loss_category", None); }
      else if i == 5 { assert HealthSensors[5] == Descriptor("bandwidth", "health", "health.bandwidth", None); }
    }
  }

  lemma HealthSensorsFacts2()
    ensures forall i :: 6 <= i < 9 ==> DescriptorFacts(HealthSensors[i], "health", 0 + i)
  {
    forall i | 6 <= i < 9 ensures DescriptorFacts(HealthSensors[i], "health", 0 + i) {
      if i == 6 { assert HealthSensors[6] == Descriptor("current_bandwidth_mb", "health", "health.current_bandwidth_mb", None); }
      else if i == 7 { assert HealthSensors[7] == Descriptor("egress_tx_rate", "health", "health.egress_tx_rate", Some(EgressTxRate)); }
      else if i == 8 { assert HealthSensors[8] == Descriptor("egress_tx_rate_category", "health", "health.egress_tx_rate_category", None); }
    }
  }

  lemma HealthSensorsFacts3()
    ensures forall i :: 9 <= i < 12 ==> DescriptorFacts(HealthSensors[i], "health", 0 + i)
  {
    forall i | 9 <= i < 12 ensures DescriptorFacts(HealthSensors[i], "health", 0 + i) {
      if i == 9 { assert HealthSensors[9] == Descriptor("wifi_channel", "health", "health.channel", None); }
      else if i == 10 { assert HealthSensors[10] == Descriptor("network_connection_value", "health", "health.network_connection_value", None); }
      else if i == 11 { assert HealthSensors[11] == Descriptor("sidewalk_connection", "health", "health.sidewalk_connection", None); }
    }
  }

  lemma HealthSensorsFacts4()
    ensures forall i :: 12 <= i < 15 ==> DescriptorFacts(HealthSensors[i], "health", 0 + i)
  {
    forall i | 12 <= i < 15 ensures DescriptorFacts(HealthSensors[i], "health", 0 + i) {
      if i == 12 { assert HealthSensors[12] == Descriptor("uptime_sec", "health", "health.uptime_sec", None); }
      else if i == 13 { assert HealthSensors[13] == Descriptor("uptime_formatted", "health", "health.uptime_sec", Some(UptimeFormatted)); }
      else if i == 14 { assert HealthSensors[14] == Descriptor("last_update_time", "health", "health.last_update_time", Some(LastUpdateTime)); }
    }
  }

  lemma HealthSensorsFacts5()
    ensures forall i :: 15 <= i < 16 ==> DescriptorFacts(HealthSensors[i], "health", 0 + i)
  {
    forall i | 15 <= i < 16 ensures DescriptorFacts(HealthSensors[i], "health", 0 + i) {
      if i == 15 { assert HealthSensors[15] == Descriptor("wifi_is_ring_network", "health", "health.wifi_is_ring_network", None); }
    }
  }

  lemma HealthSensorsFacts()
    ensures |HealthSensors| == 16
    ensures CategoryWellFormed(HealthSensors, "health", 0)
  {
    HealthSensorsFacts0();
    HealthSensorsFacts1();
    HealthSensorsFacts2();
    HealthSensorsFacts3();
    HealthSensorsFacts4();
    HealthSensorsFacts5();
  }

  lemma PowerSensorsFacts0()
    ensures forall i :: 0 <= i < 3 ==> DescriptorFacts(PowerSensors[i], "power", 16 + i)
  {
    forall i | 0 <= i < 3 ensures DescriptorFacts(PowerSensors[i], "power", 16 + i) {
      if i == 0 { assert PowerSensors[0] == Descriptor("battery_percentage", "power", "health.battery_percentage", None); }
      else if i == 1 { assert PowerSensors[1] == Descriptor("battery_percentage_category", "power", "health.battery_percentage_category", None); }
      else if i == 2 { assert PowerSensors[2] == Descriptor("battery_voltage", "power", "health.battery_voltage", None); }
    }
  }

  lemma PowerSensorsFacts1()
    ensures forall i :: 3 <= i < 6 ==> DescriptorFacts(PowerSensors[i], "power", 16 + i)
  {
    forall i | 3 <= i < 6 ensures DescriptorFacts(PowerSensors[i], "power", 16 + i) {
      if i == 3 { assert PowerSensors[3] == Descriptor("battery_voltage_category", "power", "health.battery_voltage_category", None); }
      else if i == 4 { assert PowerSensors[4] == Descriptor("battery_present", "power", "health.battery_present", None); }
      else if i == 5 { assert PowerSensors[5] == Descriptor("battery_save", "power", "health.battery_save", None); }
    }
  }

  lemma PowerSensorsFacts2()
    ensures forall i :: 6 <= i < 9 ==> DescriptorFacts(PowerSensors[i], "power", 16 + i)
  {
    forall i | 6 <= i < 9 ensures DescriptorFacts(PowerSensors[i], "power", 16 + i) {
      if i == 6 { assert PowerSensors[6] == Descriptor("battery_error", "power", "health.battery_error", None); }
      else if i == 7 { assert PowerSensors[7] == Descriptor("ac_power", "power", "health.ac_power", Some(AcPower)); }
      else if i == 8 { assert PowerSensors[8] == Descriptor("transformer_voltage", "power", "health.transformer_voltage", None); }
    }
  }

  lemma PowerSensorsFacts3()
    ensures forall i :: 9 <= i < 12 ==> DescriptorFacts(PowerSensors[i], "power", 16 + i)
  {
    forall i | 9 <= i < 12 ensures DescriptorFacts(PowerSensors[i], "power", 16 + i) {
      if i == 9 { assert PowerSensors[9] == Descriptor("transformer_voltage_category", "power", "health.transformer_voltage_category", None); }
      else if i == 10 { assert PowerSensors[10] == Descriptor("ext_power_state", "power", "health.ext_power_state", None); }
      else if i == 11 { assert PowerSensors[11] == Descriptor("run_mode", "power", "health.run_mode", None); }
    }
  }

  lemma PowerSensorsFacts4()
    ensures forall i :: 12 <= i < 13 ==> DescriptorFacts(PowerSensors[i], "power", 16 + i)
  {
    forall i | 12 <= i < 13 ensures DescriptorFacts(PowerSensors[i], "power", 16 + i) {
      if i == 12 { assert PowerSensors[12] == Descriptor("pref_run_mode", "power", "health.pref_run_mode", None); }
    }
  }

  lemma PowerSensorsFacts()
    ensures |PowerSensors| == 13
    ensures CategoryWellFormed(PowerSensors, "power", 16)
  {
    PowerSensorsFacts0();
    PowerSensorsFacts1();
    PowerSensorsFacts2();
    PowerSensorsFacts3();
    PowerSensorsFacts4();
  }

  lemma FirmwareSensorsFacts0()
    ensures forall i :: 0 <= i < 3 ==> DescriptorFacts(FirmwareSensors[i], "firmware", 29 + i)
  {
    forall i | 0 <= i < 3 ensures DescriptorFacts(FirmwareSensors[i], "firmware", 29 + i) {
      if i == 0 { assert FirmwareSensors[0] == Descriptor("firmware_version", "firmware", "health.firmware_version", None); }
      else if i == 1 { assert FirmwareSensors[1] == Descriptor("firmware_version_status", "firmware", "health.firmware_version_status", None); }
      else if i == 2 { assert FirmwareSensors[2] == Descriptor("ota_status", "firmware", "health.ota_status", None); }
    }
  }

  lemma FirmwareSensorsFacts1()
    ensures forall i :: 3 <= i < 4 ==> DescriptorFacts(FirmwareSensors[i], "firmware", 29 + i)
  {
    forall i | 3 <= i < 4 ensures DescriptorFacts(FirmwareSensors[i], "firmware", 29 + i) {
      if i == 3 { assert FirmwareSensors[3] == Descriptor("firmware_avg_bitrate", "firmware", "health.firmware_avg_bitrate", Some(FirmwareAvgBitrate)); }
    }
  }

  lemma FirmwareSensorsFacts()
    ensures |FirmwareSensors| == 4
    ensures CategoryWellFormed(FirmwareSensors, "firmware", 29)
  {
    FirmwareSensorsFacts0();
    FirmwareSensorsFacts1();
  }

  lemma VideoSensorsFacts0()
    ensures forall i :: 0 <= i < 3 ==> DescriptorFacts(VideoSensors[i], "video", 33 + i)
  {
    forall i | 0 <= i < 3 ensures DescriptorFacts(VideoSensors[i], "video", 33 + i) {
      if i == 0 { assert VideoSensors[0] == Descriptor("vod_enabled", "video", "health.vod_enabled", None); }
      else if i == 1 { assert VideoSensors[1] == Descriptor("vod_status", "video", "settings.vod_status", None); }
      else if i == 2 { assert VideoSensors[2] == Descriptor("vod_suspended", "video", "settings.vod_suspended", None); }
    }
  }

  lemma VideoSensorsFacts1()
    ensures forall i :: 3 <= i < 6 ==> DescriptorFacts(VideoSensors[i], "video", 33 + i)
  {
    forall i | 3 <= i < 6 ensures DescriptorFacts(VideoSensors[i], "video", 33 + i) {
      if i == 3 { assert VideoSensors[3] == Descriptor("stream_resolution", "video", "health.stream_resolution", None); }
      else if i == 4 { assert VideoSensors[4] == Descriptor("live_view_preset_profile", "video", "settings.live_view_preset_profile", None); }
      else if i == 5 { assert VideoSensors[5] == Descriptor("live_view_disabled", "video", "settings.live_view_disabled", None); }
    }
  }

  lemma VideoSensorsFacts2()
    ensures forall i :: 6 <= i < 9 ==> DescriptorFacts(VideoSensors[i], "video", 33 + i)
  {
    forall i | 6 <= i < 9 ensures DescriptorFacts(VideoSensors[i], "video", 33 + i) {
      if i == 6 { assert VideoSensors[6] == Descriptor("extended_live_view", "video", "settings.extended_live_view", None); }
      else if i == 7 { assert VideoSensors[7] == Descriptor("exposure_control", "video", "settings.exposure_control", None); }
      else if i == 8 { assert VideoSensors[8] == Descriptor("preroll_enabled", "video", "settings.preroll_enabled", None); }
    }
  }

  lemma VideoSensorsFacts3()
    ensures forall i :: 9 <= i < 12 ==> DescriptorFacts(VideoSensors[i], "video", 33 + i)
  {
    forall i | 9 <= i < 12 ensures DescriptorFacts(VideoSensors[i], "video", 33 + i) {
      if i == 9 { assert VideoSensors[9] == Descriptor("max_resolution_mode", "video", "settings.max_resolution_mode", None); }
      else if i == 10 { assert VideoSensors[10] == Descriptor("encryption_enabled", "video", "settings.video_settings.encryption_enabled", None); }
      else if i == 11 { assert VideoSensors[11] == Descriptor("hevc_enabled", "video", "settings.video_settings.hevc_enabled", None); }
    }
  }

  lemma VideoSensorsFacts4()
    ensures forall i :: 12 <= i < 13 ==> DescriptorFacts(VideoSensors[i], "video", 33 + i)
  {
    forall i | 12 <= i < 13 ensures DescriptorFacts(VideoSensors[i], "video", 33 + i) {
      if i == 12 { assert VideoSensors[12] == Descriptor("max_digital_zoom_level", "video", "features.video_rendering.max_digital_zoom_level", None); }
    }
  }

  lemma VideoSensorsFacts()
    ensures |VideoSensors| == 13
    ensures CategoryWellFormed(VideoSensors, "video", 33)
  {
    VideoSensorsFacts0();
    VideoSensorsFacts1();
    VideoSensorsFacts2();
    VideoSensorsFacts3();
    VideoSensorsFacts4();
  }

  lemma AudioSensorsFacts0()
    ensures forall i :: 0 <= i < 3 ==> DescriptorFacts(AudioSensors[i], "audio", 46 + i)
  {
    forall i | 0 <= i < 3 ensures DescriptorFacts(AudioSensors[i], "audio", 46 + i) {
      if i == 0 { assert AudioSensors[0] == Descriptor("enable_audio_recording", "audio", "settings.enable_audio_recording", None); }
      else if i == 1 { assert AudioSensors[1] == Descriptor("doorbell_volume", "audio", "settings.doorbell_volume", None); }
      else if i == 2 { assert AudioSensors[2] == Descriptor("voice_volume", "audio", "settings.voice_volume", None); }
    }
  }

  lemma AudioSensorsFacts1()
    ensures forall i :: 3 <= i < 5 ==> DescriptorFacts(AudioSensors[i], "audio", 46 + i)
  {
    forall i | 3 <= i < 5 ensures DescriptorFacts(AudioSensors[i], "audio", 46 + i) {
      if i == 3 { assert AudioSensors[3] == Descriptor("chime_enable", "audio", "settings.chime_settings.enable", None); }
      else if i == 4 { assert AudioSensors[4] == Descriptor("chime_duration", "audio", "settings.chime_settings.duration", None); }
    }
  }

  lemma AudioSensorsFacts()
    ensures |AudioSensors| == 5
    ensures CategoryWellFormed(AudioSensors, "audio", 46)
  {
    AudioSensorsFacts0();
    AudioSensorsFacts1();
  }

  lemma MotionSensorsFacts0()
    ensures forall i :: 0 <= i < 3 ==> DescriptorFacts(MotionSensors[i], "motion", 51 + i)
  {
    forall i | 0 <= i < 3 ensures DescriptorFacts(MotionSensors[i], "motion", 51 + i) {
      if i == 0 { assert MotionSensors[0] == Descriptor("motion_detection_enabled", "motion", "settings.motion_detection_enabled", None); }
      else if i == 1 { assert MotionSensors[1] == Descriptor("advanced_motion_detection_enabled", "motion", "settings.advanced_motion_detection_enabled", None); }
      else if i == 2 { assert MotionSensors[2] == Descriptor("advanced_motion_detection_human_only_mode", "motion", "settings.advanced_motion_detection_human_only_mode", None); }
    }
  }

  lemma MotionSensorsFacts1()
    ensures forall i :: 3 <= i < 6 ==> DescriptorFacts(MotionSensors[i], "motion", 51 + i)
  {
    forall i | 3 <= i < 6 ensures DescriptorFacts(MotionSensors[i], "motion", 51 + i) {
      if i == 3 { assert MotionSensors[3] == Descriptor("people_detection_eligible", "motion", "settings.people_detection_eligible", None); }
      else if i == 4 { assert MotionSensors[4] == Descriptor("motion_snooze_preset_profile", "motion", "settings.motion_snooze_preset_profile", None); }
      else if i == 5 { assert MotionSensors[5] == Descriptor("loitering_threshold", "motion", "settings.loitering_threshold", None); }
    }
  }

  lemma MotionSensorsFacts2()
    ensures forall i :: 6 <= i < 8 ==> DescriptorFacts(MotionSensors[i], "motion", 51 + i)
  {
    forall i | 6 <= i < 8 ensures DescriptorFacts(MotionSensors[i], "motion", 51 + i) {
      if i == 6 { assert MotionSensors[6] == Descriptor("advanced_motion_zones_enabled", "motion", "settings.advanced_motion_zones_enabled", None); }
      else if i == 7 { assert MotionSensors[7] == Descriptor("pir_sensitivity_1", "motion", "settings.pir_sensitivity_1", None); }
    }
  }

  lemma MotionSensorsFacts()
    ensures |MotionSensors| == 8
    ensures CategoryWellFormed(MotionSensors, "motion", 51)
  {
    MotionSensorsFacts0();
    MotionSensorsFacts1();
    MotionSensorsFacts2();
  }

  lemma CvThresholdSensorsFacts0()
    ensures forall i :: 0 <= i < 3 ==> DescriptorFacts(CvThresholdSensors[i], "cv_detection", 92 + i)
  {
    forall i | 0 <= i < 3 ensures DescriptorFacts(CvThresholdSensors[i], "cv_detection", 92 + i) {
      if i == 0 { assert CvThresholdSensors[0] == Descriptor("cv_threshold_loitering", "cv_detection", "settings.cv_settings.threshold.loitering", None); }
      else if i == 1 { assert CvThresholdSensors[1] == Descriptor("cv_threshold_package_delivery", "cv_detection", "settings.cv_settings.threshold.package_delivery", None); }
      else if i == 2 { assert CvThresholdSensors[2] == Descriptor("natural_language_search_enabled", "cv_detection", "settings.cv_settings.search_types.natural_language_search.enabled", None); }
    }
  }

  lemma CvThresholdSensorsFacts()
    ensures |CvThresholdSensors| == 3
    ensures CategoryWellFormed(CvThresholdSensors, "cv_detection", 92)
  {
    CvThresholdSensorsFacts0();
  }

  lemma CvPaidSensorsFacts0()
    ensures forall i :: 0 <= i < 3 ==> DescriptorFacts(CvPaidSensors[i], "cv_paid", 95 + i)
  {
    forall i | 0 <= i < 3 ensures DescriptorFacts(CvPaidSensors[i], "cv_paid", 95 + i) {
      if i == 0 { assert CvPaidSensors[0] == Descriptor("paid_human", "cv_paid", "settings.cv_paid_features.human", None); }
      else if i == 1 { assert CvPaidSensors[1] == Descriptor("paid_motion", "cv_paid", "settings.cv_paid_features.motion", None); }
      else if i == 2 { assert CvPaidSensors[2] == Descriptor("paid_other_motion", "cv_paid", "settings.cv_paid_features.other_motion", None); }
    }
  }

  lemma CvPaidSensorsFacts1()
    ensures forall i :: 3 <= i < 6 ==> DescriptorFacts(CvPaidSensors[i], "cv_paid", 95 + i)
  {
    forall i | 3 <= i < 6 ensures DescriptorFacts(CvPaidSensors[i], "cv_paid", 95 + i) {
      if i == 3 { assert CvPaidSensors[3] == Descriptor("paid_loitering", "cv_paid", "settings.cv_paid_features.loitering", None); }
      else if i == 4 { assert CvPaidSensors[4] == Descriptor("paid_vehicle", "cv_paid", "settings.cv_paid_features.vehicle", None); }
      else if i == 5 { assert CvPaidSensors[5] == Descriptor("paid_animal", "cv_paid", "settings.cv_paid_features.animal", None); }
    }
  }

  lemma CvPaidSensorsFacts2()
    ensures forall i :: 6 <= i < 9 ==> DescriptorFacts(CvPaidSensors[i], "cv_paid", 95 + i)
  {
    forall i | 6 <= i < 9 ensures DescriptorFacts(CvPaidSensors[i], "cv_paid", 95 + i) {
      if i == 6 { assert CvPaidSensors[6] == Descriptor("paid_package_delivery", "cv_paid", "settings.cv_paid_features.package_delivery", None); }
      else if i == 7 { assert CvPaidSensors[7] == Descriptor("paid_package_pickup", "cv_paid", "settings.cv_paid_features.package_pickup", None); }
      else if i == 8 { assert CvPaidSensors[8] == Descriptor("paid_baby_cry", "cv_paid", "settings.cv_paid_features.baby_cry", None); }
    }
  }

  lemma CvPaidSensorsFacts3()
    ensures forall i :: 9 <= i < 12 ==> DescriptorFacts(CvPaidSensors[i], "cv_paid", 95 + i)
  {
    forall i | 9 <= i < 12 ensures DescriptorFacts(CvPaidSensors[i], "cv_paid", 95 + i) {
      if i == 9 { assert CvPaidSensors[9] == Descriptor("paid_car_alarm", "cv_paid", "settings.cv_paid_features.car_alarm", None); }
      else if i == 10 { assert CvPaidSensors[10] == Descriptor("paid_co2_smoke_alarm", "cv_paid", "settings.cv_paid_features.co2_smoke_alarm", None); }
      else if i == 11 { assert CvPaidSensors[11] == Descriptor("paid_dog_bark", "cv_paid", "settings.cv_paid_features.dog_bark", None); }
    }
  }

  lemma CvPaidSensorsFacts4()
    ensures forall i :: 12 <= i < 14 ==> DescriptorFacts(CvPaidSensors[i], "cv_paid", 95 + i)
  {
    forall i | 12 <= i < 14 ensures DescriptorFacts(CvPaidSensors[i], "cv_paid", 95 + i) {
      if i == 12 { assert CvPaidSensors[12] == Descriptor("paid_glass_break", "cv_paid", "settings.cv_paid_features.glass_break", None); }
      else if i == 13 { assert CvPaidSensors[13] == Descriptor("paid_general_sound", "cv_paid", "settings.cv_paid_features.general_sound", None); }
    }
  }

  lemma CvPaidSensorsFacts()
    ensures |CvPaidSensors| == 14
    ensures CategoryWellFormed(CvPaidSensors, "cv_paid", 95)
  {
    CvPaidSensorsFacts0();
    CvPaidSensorsFacts1();
    CvPaidSensorsFacts2();
    CvPaidSensorsFacts3();
    CvPaidSensorsFacts4();
  }

  lemma OtherPaidSensorsFacts0()
    ensures forall i :: 0 <= i < 3 ==> DescriptorFacts(OtherPaidSensors[i], "other_paid", 109 + i)
  {
    forall i | 0 <= i < 3 ensures DescriptorFacts(OtherPaidSensors[i], "other_paid", 109 + i) {
      if i == 0 { assert OtherPaidSensors[0] == Descriptor("paid_alexa_concierge", "other_paid", "settings.other_paid_features.alexa_concierge", None); }
      else if i == 1 { assert OtherPaidSensors[1] == Descriptor("paid_sheila_cv", "other_paid", "settings.other_paid_features.sheila_cv", None); }
      else if i == 2 { assert OtherPaidSensors[2] == Descriptor("paid_sheila_recording", "other_paid", "settings.other_paid_features.sheila_recording", None); }
    }
  }

  lemma OtherPaidSensorsFacts1()
    ensures forall i :: 3 <= i < 6 ==> DescriptorFacts(OtherPaidSensors[i], "other_paid", 109 + i)
  {
    forall i | 3 <= i < 6 ensures DescriptorFacts(OtherPaidSensors[i], "other_paid", 109 + i) {
      if i == 3 { assert OtherPaidSensors[3] == Descriptor("paid_extended_live_view", "other_paid", "settings.other_paid_features.extended_live_view", None); }
      else if i == 4 { assert OtherPaidSensors[4] == Descriptor("paid_recording_24x7", "other_paid", "settings.other_paid_features.recording_24x7", None); }
      else if i == 5 { assert OtherPaidSensors[5] == Descriptor("paid_natural_language_search", "other_paid", "settings.other_paid_features.natural_language_search", None); }
    }
  }

  lemma OtherPaidSensorsFacts2()
    ensures forall i :: 6 <= i < 9 ==> DescriptorFacts(OtherPaidSensors[i], "other_paid", 109 + i)
  {
    forall i | 6 <= i < 9 ensures DescriptorFacts(OtherPaidSensors[i], "other_paid", 109 + i) {
      if i == 6 { assert OtherPaidSensors[6] == Descriptor("paid_multicam_live_view", "other_paid", "settings.other_paid_features.multicam_live_view", None); }
      else if i == 7 { assert OtherPaidSensors[7] == Descriptor("paid_daily_digest", "other_paid", "settings.other_paid_features.daily_digest", None); }
      else if i == 8 { assert OtherPaidSensors[8] == Descriptor("paid_package_protection", "other_paid", "settings.other_paid_features.package_protection", None); }
    }
  }

  lemma OtherPaidSensorsFacts3()
    ensures forall i :: 9 <= i < 10 ==> DescriptorFacts(OtherPaidSensors[i], "other_paid", 109 + i)
  {
    forall i | 9 <= i < 10 ensures DescriptorFacts(OtherPaidSensors[i], "other_paid", 109 + i) {
      if i == 9 { assert OtherPaidSensors[9] == Descriptor("paid_critical_alerts", "other_paid", "settings.other_paid_features.critical_alerts", None); }
    }
  }

  lemma OtherPaidSensorsFacts()
    ensures |OtherPaidSensors| == 10
    ensures CategoryWellFormed(OtherPaidSensors, "other_paid", 109)
  {
    OtherPaidSensorsFacts0();
    OtherPaidSensorsFacts1();
    OtherPaidSensorsFacts2();
    OtherPaidSensorsFacts3();
  }

  lemma NotificationSensorsFacts0()
    ensures forall i :: 0 <= i < 3 ==> DescriptorFacts(NotificationSensors[i], "notifications", 119 + i)
  {
    forall i | 0 <= i < 3 ensures DescriptorFacts(NotificationSensors[i], "notifications", 119 + i) {
      if i == 0 { assert NotificationSensors[0] == Descriptor("enable_rich_notifications", "notifications", "settings.enable_rich_notifications", None); }
      else if i == 1 { assert NotificationSensors[1] == Descriptor("rich_notifications_billing_eligible", "notifications", "settings.rich_notifications_billing_eligible", None); }
      else if i == 2 { assert NotificationSensors[2] == Descriptor("rich_notifications_face_crop_enabled", "notifications", "settings.rich_notifications_face_crop_enabled", None); }
    }
  }

  lemma NotificationSensorsFacts1()
    ensures forall i :: 3 <= i < 5 ==> DescriptorFacts(NotificationSensors[i], "notifications", 119 + i)
  {
    forall i | 3 <= i < 5 ensures DescriptorFacts(NotificationSensors[i], "notifications", 119 + i) {
      if i == 3 { assert NotificationSensors[3] == Descriptor("rich_notifications_scene_source", "notifications", "settings.rich_notifications_scene_source", None); }
      else if i == 4 { assert NotificationSensors[4] == Descriptor("rich_notifications_eligible", "notifications", "features.rich_notifications_eligible", None); }
    }
  }

  lemma NotificationSensorsFacts()
    ensures |NotificationSensors| == 5
    ensures CategoryWellFormed(NotificationSensors, "notifications", 119)
  {
    NotificationSensorsFacts0();
    NotificationSensorsFacts1();
  }

  lemma RecordingSensorsFacts0()
    ensures forall i :: 0 <= i < 3 ==> DescriptorFacts(RecordingSensors[i], "recording", 124 + i)
  {
    forall i | 0 <= i < 3 ensures DescriptorFacts(RecordingSensors[i], "recording", 124 + i) {
      if i == 0 { assert RecordingSensors[0] == Descriptor("user_specified_recording_ttl", "recording", "settings.user_specified_recording_ttl", None); }
      else if i == 1 { assert RecordingSensors[1] == Descriptor("lite_24x7_subscribed", "recording", "settings.lite_24x7.subscribed", None); }
      else if i == 2 { assert RecordingSensors[2] == Descriptor("lite_24x7_enabled", "recording", "settings.lite_24x7.enabled", None); }
    }
  }

  lemma RecordingSensorsFacts1()
    ensures forall i :: 3 <= i < 6 ==> DescriptorFacts(RecordingSensors[i], "recording", 124 + i)
  {
    forall i | 3 <= i < 6 ensures DescriptorFacts(RecordingSensors[i], "recording", 124 + i) {
      if i == 3 { assert RecordingSensors[3] == Descriptor("lite_24x7_frequency_secs", "recording", "settings.lite_24x7.frequency_secs", None); }
      else if i == 4 { assert RecordingSensors[4] == Descriptor("lite_24x7_resolution_p", "recording", "settings.lite_24x7.resolution_p", None); }
      else if i == 5 { assert RecordingSensors[5] == Descriptor("lite_24x7_footage_ttl", "recording", "settings.lite_24x7_footage_ttl", None); }
    }
  }

  lemma RecordingSensorsFacts2()
    ensures forall i :: 6 <= i < 7 ==> DescriptorFacts(RecordingSensors[i], "recording", 124 + i)
  {
    forall i | 6 <= i < 7 ensures DescriptorFacts(RecordingSensors[i], "recording", 124 + i) {
      if i == 6 { assert RecordingSensors[6] == Descriptor("offline_motion_enabled", "recording", "settings.offline_motion_event_settings.enabled", None); }
    }
  }

  lemma RecordingSensorsFacts()
    ensures |RecordingSensors| == 7
    ensures CategoryWellFormed(RecordingSensors, "recording", 124)
  {
    RecordingSensorsFacts0();
    RecordingSensorsFacts1();
    RecordingSensorsFacts2();
  }

  lemma FloodlightSensorsFacts0()
    ensures forall i :: 0 <= i < 3 ==> DescriptorFacts(FloodlightSensors[i], "floodlight", 131 + i)
  {
    forall i | 0 <= i < 3 ensures DescriptorFacts(FloodlightSensors[i], "floodlight", 131 + i) {
      if i == 0 { assert FloodlightSensors[0] == Descriptor("floodlight_on", "floodlight", "health.floodlight_on", None); }
      else if i == 1 { assert FloodlightSensors[1] == Descriptor("white_led_on", "floodlight", "health.white_led_on", None); }
      else if i == 2 { assert FloodlightSensors[2] == Descriptor("floodlight_duration", "floodlight", "settings.floodlight_settings.duration", None); }
    }
  }

  lemma FloodlightSensorsFacts1()
    ensures forall i :: 3 <= i < 5 ==> DescriptorFacts(FloodlightSensors[i], "floodlight", 131 + i)
  {
    forall i | 3 <= i < 5 ensures DescriptorFacts(FloodlightSensors[i], "floodlight", 131 + i) {
      if i == 3 { assert FloodlightSensors[3] == Descriptor("floodlight_brightness", "floodlight", "settings.floodlight_settings.brightness", None); }
      else if i == 4 { assert FloodlightSensors[4] == Descriptor("floodlight_always_on", "floodlight", "settings.floodlight_settings.always_on", None); }
    }
  }

  lemma FloodlightSensorsFacts()
    ensures |FloodlightSensors| == 5
    ensures CategoryWellFormed(FloodlightSensors, "floodlight", 131)
  {
    FloodlightSensorsFacts0();
    FloodlightSensorsFacts1();
  }

  lemma RadarSensorsFacts0()
    ensures forall i :: 0 <= i < 3 ==> DescriptorFacts(RadarSensors[i], "radar", 136 + i)
  {
    forall i | 0 <= i < 3 ensures DescriptorFacts(RadarSensors[i], "radar", 136 + i) {
      if i == 0 { assert RadarSensors[0] == Descriptor("birds_eye_view_enabled", "radar", "settings.radar_settings.birds_eye_view_enabled", None); }
      else if i == 1 { assert RadarSensors[1] == Descriptor("bez_feature_enabled", "radar", "settings.radar_settings.bez_feature_enabled", None); }
      else if i == 2 { assert RadarSensors[2] == Descriptor("bez_filtering_enabled", "radar", "settings.radar_settings.bez_filtering_enabled", None); }
    }
  }

  lemma RadarSensorsFacts1()
    ensures forall i :: 3 <= i < 4 ==> DescriptorFacts(RadarSensors[i], "radar", 136 + i)
  {
    forall i | 3 <= i < 4 ensures DescriptorFacts(RadarSensors[i], "radar", 136 + i) {
      if i == 3 { assert RadarSensors[3] == Descriptor("installation_height", "radar", "settings.radar_settings.installation_height", None); }
    }
  }

  lemma RadarSensorsFacts()
    ensures |RadarSensors| == 4
    ensures CategoryWellFormed(RadarSensors, "radar", 136)
  {
    RadarSensorsFacts0();
    RadarSensorsFacts1();
  }

  lemma LocalProcessingSensorsFacts0()
    ensures forall i :: 0 <= i < 3 ==> DescriptorFacts(LocalProcessingSensors[i], "local_processing", 140 + i)
  {
    forall i | 0 <= i < 3 ensures DescriptorFacts(LocalProcessingSensors[i], "local_processing", 140 + i) {
      if i == 0 { assert LocalProcessingSensors[0] == Descriptor("sheila_cv_processing_enabled", "local_processing", "settings.sheila_settings.cv_processing_enabled", None); }
      else if i == 1 { assert LocalProcessingSensors[1] == Descriptor("sheila_local_storage_enabled", "local_processing", "settings.sheila_settings.local_storage_enabled", None); }
      else if i == 2 { assert LocalProcessingSensors[2] == Descriptor("sheila_camera_eligible", "local_processing", "features.sheila_camera_eligible", None); }
    }
  }

  lemma LocalProcessingSensorsFacts1()
    ensures forall i :: 3 <= i < 4 ==> DescriptorFacts(LocalProcessingSensors[i], "local_processing", 140 + i)
  {
    forall i | 3 <= i < 4 ensures DescriptorFacts(LocalProcessingSensors[i], "local_processing", 140 + i) {
      if i == 3 { assert LocalProcessingSensors[3] == Descriptor("sheila_camera_processing_eligible", "local_processing", "features.sheila_camera_processing_eligible", None); }
    }
  }

  lemma LocalProcessingSensorsFacts()
    ensures |LocalProcessingSensors| == 4
    ensures CategoryWellFormed(LocalProcessingSensors, "local_processing", 140)
  {
    LocalProcessingSensorsFacts0();
    LocalProcessingSensorsFacts1();
  }

  lemma FeatureSensorsFacts0()
    ensures forall i :: 0 <= i < 3 ==> DescriptorFacts(FeatureSensors[i], "features", 144 + i)
  {
    forall i | 0 <= i < 3 ensures DescriptorFacts(FeatureSensors[i], "features", 144 + i) {
      if i == 0 { assert FeatureSensors[0] == Descriptor("cfes_eligible", "features", "features.cfes_eligible", None); }
      else if i == 1 { assert FeatureSensors[1] == Descriptor("motions_enabled", "features", "features.motions_enabled", None); }
      else if i == 2 { assert FeatureSensors[2] == Descriptor("show_recordings", "features", "features.show_recordings", None); }
    }
  }

  lemma FeatureSensorsFacts1()
    ensures forall i :: 3 <= i < 6 ==> DescriptorFacts(FeatureSensors[i], "features", 144 + i)
  {
    forall i | 3 <= i < 6 ensures DescriptorFacts(FeatureSensors[i], "features", 144 + i) {
      if i == 3 { assert FeatureSensors[3] == Descriptor("show_vod_settings", "features", "features.show_vod_settings", None); }
      else if i == 4 { assert FeatureSensors[4] == Descriptor("recording_mode", "features", "features.video_recording.recording_mode", None); }
      else if i == 5 { assert FeatureSensors[5] == Descriptor("recording_enabled", "features", "features.video_recording.recording_enabled", None); }
    }
  }

  lemma FeatureSensorsFacts2()
    ensures forall i :: 6 <= i < 9 ==> DescriptorFacts(FeatureSensors[i], "features", 144 + i)
  {
    forall i | 6 <= i < 9 ensures DescriptorFacts(FeatureSensors[i], "features", 144 + i) {
      if i == 6 { assert FeatureSensors[6] == Descriptor("recording_state", "features", "features.video_recording.recording_state", None); }
      else if i == 7 { assert FeatureSensors[7] == Descriptor("recording_24x7_eligible", "features", "features.recording_24x7_eligible", None); }
      else if i == 8 { assert FeatureSensors[8] == Descriptor("dynamic_network_switching_eligible", "features", "features.dynamic_network_switching_eligible", None); }
    }
  }

  lemma FeatureSensorsFacts()
    ensures |FeatureSensors| == 9
    ensures CategoryWellFormed(FeatureSensors, "features", 144)
  {
    FeatureSensorsFacts0();
    FeatureSensorsFacts1();
    FeatureSensorsFacts2();
  }

  lemma DeviceStatusSensorsFacts0()
    ensures forall i :: 0 <= i < 3 ==> DescriptorFacts(DeviceStatusSensors[i], "device_status", 153 + i)
  {
    forall i | 0 <= i < 3 ensures DescriptorFacts(DeviceStatusSensors[i], "device_status", 153 + i) {
      if i == 0 { assert DeviceStatusSensors[0] == Descriptor("night_mode_on", "device_status", "health.night_mode_on", None); }
      else if i == 1 { assert DeviceStatusSensors[1] == Descriptor("siren_on", "device_status", "health.siren_on", None); }
      else if i == 2 { assert DeviceStatusSensors[2] == Descriptor("hatch_open", "device_status", "health.hatch_open", None); }
    }
  }

  lemma DeviceStatusSensorsFacts1()
    ensures forall i :: 3 <= i < 6 ==> DescriptorFacts(DeviceStatusSensors[i], "device_status", 153 + i)
  {
    forall i | 3 <= i < 6 ensures DescriptorFacts(DeviceStatusSensors[i], "device_status", 153 + i) {
      if i == 3 { assert DeviceStatusSensors[3] == Descriptor("stolen", "device_status", "stolen", None); }
      else if i == 4 { assert DeviceStatusSensors[4] == Descriptor("owned", "device_status", "owned", None); }
      else if i == 5 { assert DeviceStatusSensors[5] == Descriptor("subscribed", "device_status", "subscribed", None); }
    }
  }

  lemma DeviceStatusSensorsFacts2()
    ensures forall i :: 6 <= i < 8 ==> DescriptorFacts(DeviceStatusSensors[i], "device_status", 153 + i)
  {
    forall i | 6 <= i < 8 ensures DescriptorFacts(DeviceStatusSensors[i], "device_status", 153 + i) {
      if i == 6 { assert DeviceStatusSensors[6] == Descriptor("is_sidewalk_gateway", "device_status", "is_sidewalk_gateway", None); }
      else if i == 7 { assert DeviceStatusSensors[7] == Descriptor("device_kind", "device_status", "kind", None); }
    }
  }

  lemma DeviceStatusSensorsFacts()
    ensures |DeviceStatusSensors| == 8
    ensures CategoryWellFormed(DeviceStatusSensors, "device_status", 153)
  {
    DeviceStatusSensorsFacts0();
    DeviceStatusSensorsFacts1();
    DeviceStatusSensorsFacts2();
  }

  /**
   * `CATEGORY_SENSORS`, in key order, written in four runs of four categories
   * so that the facts of each run are proved without the others.
   */
  const CategorySensors: seq<(string, seq<Descriptor>)> :=
    CategoriesFrom0 + CategoriesFrom4 + CategoriesFrom8 + CategoriesFrom12

  const CategoriesFrom0: seq<(string, seq<Descriptor>)> := [
    ("health", HealthSensors),
    ("power", PowerSensors),
    ("firmware", FirmwareSensors),
    ("video", VideoSensors)
  ]

  const CategoriesFrom4: seq<(string, seq<Descriptor>)> := [
    ("audio", AudioSensors),
    ("motion", MotionSensors),
    ("cv_detection", CvDescriptorsOf(CvDetectionTypes) + CvThresholdSensors),
    ("cv_paid", CvPaidSensors)
  ]

  const CategoriesFrom8: seq<(string, seq<Descriptor>)> := [
    ("other_paid", OtherPaidSensors),
    ("notifications", NotificationSensors),
    ("recording", RecordingSensors),
    ("floodlight", FloodlightSensors)
  ]

  const CategoriesFrom12: seq<(string, seq<Descriptor>)> := [
    ("radar", RadarSensors),
    ("local_processing", LocalProcessingSensors),
    ("features", FeatureSensors),
    ("device_status", DeviceStatusSensors)
  ]

  /** The descriptors of every category, one category after the other. */
  function Flatten(categories: seq<(string, seq<Descriptor>)>): seq<Descriptor>
  {
    if categories == [] then [] else categories[0].1 + Flatten(categories[1..])
  }

  /** `ALL_SENSORS` */
  function AllSensors(): seq<Descriptor>
  {
    Flatten(CategorySensors)
  }

  // ------------------------------------------------------------ well-formedness

  function DetectionTypeIndex(t: string): int
  {
    match t
    case "human" => 0
    case "motion" => 1
    case "other_motion" => 2
    case "loitering" => 3
    case "moving_vehicle" => 4
    case "vehicle" => 5
    case "animal" => 6
    case "package_delivery" => 7
    case "package_pickup" => 8
    case "unverified_motion" => 9
    case "motion_stop" => 10
    case _ => -1
  }

  function SettingIndex(s: string): int
  {
    match s
    case "enabled" => 0
    case "mode" => 1
    case "notification" => 2
    case _ => -1
  }

  /** The setting a generated key ends with, told by its last character. */
  function SettingByLastChar(c: char): int
  {
    if c == 'd' then 0 else if c == 'e' then 1 else if c == 'n' then 2 else -1
  }

  /** Position of a key starting with `cv_`: generated keys by type and setting, others by the table. */
  function CvKeyPosition(key: string): int
    requires |key| >= 3
  {
    var n := SettingByLastChar(key[|key| - 1]);
    if 0 <= n && |key| >= 4 + |CvSettings[n]| && DetectionTypeIndex(key[3..|key| - |CvSettings[n]| - 1]) >= 0 then
      59 + 3 * DetectionTypeIndex(key[3..|key| - |CvSettings[n]| - 1]) + n
    else LiteralKeyPosition(key)
  }

  /** The index of a key in `ALL_SENSORS`, computed from the key alone. */
  function CatalogPosition(key: string): int
  {
    if |key| >= 3 && key[0] == 'c' && key[1] == 'v' && key[2] == '_' then CvKeyPosition(key)
    else LiteralKeyPosition(key)
  }

  /** What every catalog descriptor satisfies, `position` being its index in `ALL_SENSORS`. */
  predicate DescriptorFacts(d: Descriptor, category: string, position: int)
  {
    && d.category == category
    && CatalogPosition(d.key) == position
    && d.attrPath != ""
    && (d.valueFn.Some? ==> ValueFnPath(d.valueFn.value) == d.attrPath)
  }

  lemma DetectionTypeIndices()
    ensures forall m :: 0 <= m < |CvDetectionTypes| ==> DetectionTypeIndex(CvDetectionTypes[m]) == m
  {
  }

  /** A generated key sits at the position its type and setting give it. */
  lemma {:induction false} CvKeyPositionOf(t: string, n: nat)
    requires n < 3 && DetectionTypeIndex(t) >= 0
    ensures CatalogPosition(CvDescriptor(t, CvSettings[n]).key) == 59 + 3 * DetectionTypeIndex(t) + n
  {
    var s := CvSettings[n];
    var key := "cv_" + t + "_" + s;
    assert key[0] == 'c' && key[1] == 'v' && key[2] == '_';
    assert key[|key| - 1] == s[|s| - 1];
    assert SettingByLastChar(s[|s| - 1]) == n;
    assert key[3..|key| - |s| - 1] == t;
  }

  lemma {:induction false} CvGeneratedFacts()
    ensures CategoryWellFormed(CvDescriptorsOf(CvDetectionTypes), "cv_detection", 59)
  {
    var g := CvDescriptorsOf(CvDetectionTypes);
    DetectionTypeIndices();
    forall i | 0 <= i < |g| ensures DescriptorFacts(g[i], "cv_detection", 59 + i) {
      CvDescriptorsAt(CvDetectionTypes, i);
      CvKeyPositionOf(CvDetectionTypes[i / 3], i % 3);
    }
  }

  /** The descriptors of one category, from position `start` on. */
  predicate CategoryWellFormed(ds: seq<Descriptor>, category: string, start: int)
  {
    forall j :: 0 <= j < |ds| ==> DescriptorFacts(ds[j], category, start + j)
  }

  /** Categories whose descriptors fill positions `start` up to `end`. */
  predicate WellFormedFrom(categories: seq<(string, seq<Descriptor>)>, start: int, end: int)
    decreases |categories|
  {
    if categories == [] then start == end
    else
      && CategoryWellFormed(categories[0].1, categories[0].0, start)
      && WellFormedFrom(categories[1..], start + |categories[0].1|, end)
  }

  lemma {:induction false} FlattenWellFormed(categories: seq<(string, seq<Descriptor>)>, start: int, end: int)
    requires WellFormedFrom(categories, start, end)
    ensures |Flatten(categories)| == end - start
    ensures forall i :: 0 <= i < |Flatten(categories)| ==>
      CatalogPosition(Flatten(categories)[i].key) == start + i
      && Flatten(categories)[i].attrPath != ""
      && (Flatten(categories)[i].valueFn.Some? ==> ValueFnPath(Flatten(categories)[i].valueFn.value) == Flatten(categories)[i].attrPath)
    ensures forall c, j :: 0 <= c < |categories| && 0 <= j < |categories[c].1| ==> categories[c].1[j].category == categories[c].0
    decreases |categories|
  {
    if categories != [] {
      FlattenWellFormed(categories[1..], start + |categories[0].1|, end);
      var f := Flatten(categories);
      var head := categories[0].1;
      forall i | 0 <= i < |f| ensures CatalogPosition(f[i].key) == start + i {
        if i >= |head| {
          assert f[i] == Flatten(categories[1..])[i - |head|];
        } else {
          assert f[i] == head[i];
        }
      }
      forall c, j | 0 <= c < |categories| && 0 <= j < |categories[c].1| ensures categories[c].1[j].category == categories[c].0 {
        if c > 0 {
          assert categories[c] == categories[1..][c - 1];
        }
      }
    }
  }

  lemma CategoryConcat(a: seq<Descriptor>, b: seq<Descriptor>, category: string, start: int)
    requires CategoryWellFormed(a, category, start) && CategoryWellFormed(b, category, start + |a|)
    ensures CategoryWellFormed(a + b, category, start)
  {
    forall j | 0 <= j < |a + b| ensures DescriptorFacts((a + b)[j], category, start + j) {
      if j >= |a| { assert (a + b)[j] == b[j - |a|]; }
    }
  }

  lemma WellFormedStep(categories: seq<(string, seq<Descriptor>)>, k: nat, start: int, end: int)
    requires k < |categories|
    requires CategoryWellFormed(categories[k].1, categories[k].0, start)
    requires WellFormedFrom(categories[k + 1..], start + |categories[k].1|, end)
    ensures WellFormedFrom(categories[k..], start, end)
  {
    assert categories[k..][1..] == categories[k + 1..];
  }

  lemma CvDetectionFacts()
    ensures |CvDescriptorsOf(CvDetectionTypes) + CvThresholdSensors| == 36
    ensures CategoryWellFormed(CvDescriptorsOf(CvDetectionTypes) + CvThresholdSensors, "cv_detection", 59)
  {
    CvGeneratedFacts();
    CvThresholdSensorsFacts();
    CategoryConcat(CvDescriptorsOf(CvDetectionTypes), CvThresholdSensors, "cv_detection", 59);
  }

  /** Two runs of categories that fill adjacent positions fill them together. */
  lemma {:induction false} WellFormedConcat(a: seq<(string, seq<Descriptor>)>, b: seq<(string, seq<Descriptor>)>,
                                            start: int, mid: int, end: int)
    requires WellFormedFrom(a, start, mid) && WellFormedFrom(b, mid, end)
    ensures WellFormedFrom(a + b, start, end)
    decreases |a|
  {
    if a != [] {
      WellFormedConcat(a[1..], b, start + |a[0].1|, mid, end);
      assert (a + b)[0] == a[0];
      assert (a + b)[1..] == a[1..] + b;
    } else {
      assert a + b == b;
    }
  }

  lemma CategoriesFrom0WellFormed()
    ensures WellFormedFrom(CategoriesFrom0, 0, 46)
  {
    var cs := CategoriesFrom0;
    HealthSensorsFacts();
    PowerSensorsFacts();
    FirmwareSensorsFacts();
    VideoSensorsFacts();
    assert WellFormedFrom(cs[4..], 46, 46);
    WellFormedStep(cs, 3, 33, 46);
    WellFormedStep(cs, 2, 29, 46);
    WellFormedStep(cs, 1, 16, 46);
    WellFormedStep(cs, 0, 0, 46);
    assert cs[0..] == cs;
  }

  lemma CategoriesFrom4WellFormed()
    ensures WellFormedFrom(CategoriesFrom4, 46, 109)
  {
    var cs := CategoriesFrom4;
    AudioSensorsFacts();
    MotionSensorsFacts();
    CvDetectionFacts();
    CvPaidSensorsFacts();
    assert WellFormedFrom(cs[4..], 109, 109);
    WellFormedStep(cs, 3, 95, 109);
    WellFormedStep(cs, 2, 59, 109);
    WellFormedStep(cs, 1, 51, 109);
    WellFormedStep(cs, 0, 46, 109);
    assert cs[0..] == cs;
  }

  lemma CategoriesFrom8WellFormed()
    ensures WellFormedFrom(CategoriesFrom8, 109, 136)
  {
    var cs := CategoriesFrom8;
    OtherPaidSensorsFacts();
    NotificationSensorsFacts();
    RecordingSensorsFacts();
    FloodlightSensorsFacts();
    assert WellFormedFrom(cs[4..], 136, 136);
    WellFormedStep(cs, 3, 131, 136);
    WellFormedStep(cs, 2, 124, 136);
    WellFormedStep(cs, 1, 119, 136);
    WellFormedStep(cs, 0, 109, 136);
    assert cs[0..] == cs;
  }

  lemma CategoriesFrom12WellFormed()
    ensures WellFormedFrom(CategoriesFrom12, 136, 161)
  {
    var cs := CategoriesFrom12;
    RadarSensorsFacts();
    LocalProcessingSensorsFacts();
    FeatureSensorsFacts();
    DeviceStatusSensorsFacts();
    assert WellFormedFrom(cs[4..], 161, 161);
    WellFormedStep(cs, 3, 153, 161);
    WellFormedStep(cs, 2, 144, 161);
    WellFormedStep(cs, 1, 140, 161);
    WellFormedStep(cs, 0, 136, 161);
    assert cs[0..] == cs;
  }

  /**
   * Every descriptor of the catalog satisfies its facts, category by
   * category, and the catalog lists the categories of `SENSOR_CATEGORIES`
   * in their order.
   */
  lemma CatalogWellFormed()
    ensures WellFormedFrom(CategorySensors, 0, 161)
    ensures seq(|CategorySensors|, i requires 0 <= i < |CategorySensors| => CategorySensors[i].0) == SensorCategories
  {
    CategoriesFrom0WellFormed();
    CategoriesFrom4WellFormed();
    CategoriesFrom8WellFormed();
    CategoriesFrom12WellFormed();
    WellFormedConcat(CategoriesFrom0, CategoriesFrom4, 0, 46, 109);
    WellFormedConcat(CategoriesFrom0 + CategoriesFrom4, CategoriesFrom8, 0, 109, 136);
    WellFormedConcat(CategoriesFrom0 + CategoriesFrom4 + CategoriesFrom8, CategoriesFrom12, 0, 136, 161);
    CategoryNamesInOrder();
  }

  lemma CategoryNamesInOrder()
    ensures seq(|CategorySensors|, i requires 0 <= i < |CategorySensors| => CategorySensors[i].0) == SensorCategories
  {
  }

  /** Categories that fill positions `start` up to `end` hold no key twice. */
  lemma FlattenKeysDistinct(categories: seq<(string, seq<Descriptor>)>, start: int, end: int)
    requires WellFormedFrom(categories, start, end)
    ensures forall i, j :: 0 <= i < j < |Flatten(categories)| ==> Flatten(categories)[i].key != Flatten(categories)[j].key
  {
    FlattenWellFormed(categories, start, end);
    var all := Flatten(categories);
    forall i, j | 0 <= i < j < |all| ensures all[i].key != all[j].key {
      assert CatalogPosition(all[i].key) == start + i && CatalogPosition(all[j].key) == start + j;
    }
  }

  /**
   * `ALL_SENSORS` holds 161 descriptors with pairwise distinct keys and no
   * empty path, and every value function reads its descriptor's own path.
   */
  lemma {:induction false} AllSensorsWellFormed()
    ensures |AllSensors()| == 161
    ensures forall i, j :: 0 <= i < j < |AllSensors()| ==> AllSensors()[i].key != AllSensors()[j].key
    ensures forall i :: 0 <= i < |AllSensors()| ==> AllSensors()[i].attrPath != ""
    ensures forall i :: 0 <= i < |AllSensors()| && AllSensors()[i].valueFn.Some? ==>
      ValueFnPath(AllSensors()[i].valueFn.value) == AllSensors()[i].attrPath
  {
    CatalogWellFormed();
    FlattenWellFormed(CategorySensors, 0, 161);
    FlattenKeysDistinct(CategorySensors, 0, 161);
  }
}
