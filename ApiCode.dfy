/** The numeric property codes of the IKEA TRÅDFRI wire format. */
module ApiCode {

  // General
  const NAME := "9001"
  const CREATION_DATE := "9002"
  const INSTANCE_ID := "9003"
  const ON_OFF := "5850"
  const BRIGHTNESS := "5851"
  const TRANSITION_TIME := "5712"

  // Devices
  const MOTION_SENSOR := "3300"
  const LIGHT := "3311"
  const PLUG := "3312"
  const BLIND := "15015"

  // Device information
  const DEVICE_INFORMATION := "3"
  const MANUFACTURER := "0"
  const MODEL_NAME := "1"
  const SERIAL := "2"
  const FIRMWARE_VERSION := "3"
  const POWER_SOURCE := "6"
  const BATTERY_LEVEL := "9"

  // Lights
  const COLOUR_HEX := "5706"
  const HUE := "5707"
  const SATURATION := "5708"
  const COLOUR_X := "5709"
  const COLOUR_Y := "5710"
  const COLOUR_TEMPERATURE := "5711"

  // Blinds
  const POSITION := "5536"

  // Groups
  const ACCESSORY_LINK_REMOTE := "9018"

  // Scenes
  const SCENE_ICON_ID := "9109"
  const USE_CURRENT_LIGHT_SETTINGS := "9070"
  const LIGHT_SETTING := "15013"
  const IKEA_MOODS := "9068"
  const SCENE_ACTIVATE_FLAG := "9058"
  const SCENE_ID := "9039"
  const SCENE_INDEX := "9057"
  const SCENE_LINK := "9009"
  const DEVICE_INDEX_ID := "9057"
  const IS_SCENE_PREDEFINED := "9068"
  const LIGHT_SETTINGS := "15013"

  // Gateway
  const IDENTITY := "9090"
  const PRESHARED_KEY := "9091"
  const GATEWAY_FIRMWARE_VERSION := "9029"

  /** The four keys of a group write are pairwise distinct, so an encoded group payload never collides. */
  lemma GroupWriteKeysDistinct()
    ensures |{ON_OFF, BRIGHTNESS, TRANSITION_TIME, COLOUR_HEX}| == 4
  {
  }

  /** The general identity keys are pairwise distinct. */
  lemma GeneralKeysDistinct()
    ensures |{NAME, CREATION_DATE, INSTANCE_ID}| == 3
  {
  }

  /** The keys a group response is read from are pairwise distinct. */
  lemma GroupResponseKeysDistinct()
    ensures |{NAME, BRIGHTNESS, INSTANCE_ID, CREATION_DATE, ON_OFF, SCENE_ID, ACCESSORY_LINK_REMOTE}| == 7
  {
  }

  /** The keys of a scene's properties are pairwise distinct. */
  lemma SceneKeysDistinct()
    ensures |{NAME, SCENE_ACTIVATE_FLAG, SCENE_ICON_ID, SCENE_INDEX, IKEA_MOODS, USE_CURRENT_LIGHT_SETTINGS, LIGHT_SETTINGS}| == 7
  {
  }

  /** The activation payload's two keys differ. */
  lemma ActivationKeysDistinct()
    ensures ON_OFF != SCENE_ID
  {
  }

  /**
   * Deliberate aliases: these codes share a value. DEVICE_INFORMATION and
   * FIRMWARE_VERSION also share one and are told apart only by nesting level.
   */
  lemma Aliases()
    ensures SCENE_INDEX == DEVICE_INDEX_ID == "9057"
    ensures IKEA_MOODS == IS_SCENE_PREDEFINED == "9068"
    ensures LIGHT_SETTING == LIGHT_SETTINGS == "15013"
    ensures DEVICE_INFORMATION == FIRMWARE_VERSION == "3"
  {
  }
}
