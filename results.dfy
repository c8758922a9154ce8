/**
 * GetVkResultString: the name of a VkResult code, used as the message of the
 * PANIC_IF_NOT_SUCCESS check that every driver call in the setup goes through.
 */
module Results {
  import opened Vk

  /**
   * GetVkResultString (a `switch` with one case per listed enumerator): the
   * enumerator's own name for each listed code, "" for every other value.
   */
  function GetVkResultString(res: Enum): string
  {
    match res
    case 0 => "VK_SUCCESS"
    case 1 => "VK_NOT_READY"
    case 2 => "VK_TIMEOUT"
    case 3 => "VK_EVENT_SET"
    case 4 => "VK_EVENT_RESET"
    case 5 => "VK_INCOMPLETE"
    case -1 => "VK_ERROR_OUT_OF_HOST_MEMORY"
    case -2 => "VK_ERROR_OUT_OF_DEVICE_MEMORY"
    case -3 => "VK_ERROR_INITIALIZATION_FAILED"
    case -4 => "VK_ERROR_DEVICE_LOST"
    case -5 => "VK_ERROR_MEMORY_MAP_FAILED"
    case -6 => "VK_ERROR_LAYER_NOT_PRESENT"
    case -7 => "VK_ERROR_EXTENSION_NOT_PRESENT"
    case -8 => "VK_ERROR_FEATURE_NOT_PRESENT"
    case -9 => "VK_ERROR_INCOMPATIBLE_DRIVER"
    case -10 => "VK_ERROR_TOO_MANY_OBJECTS"
    case -11 => "VK_ERROR_FORMAT_NOT_SUPPORTED"
    case -12 => "VK_ERROR_FRAGMENTED_POOL"
    case -13 => "VK_ERROR_UNKNOWN"
    case -1000069000 => "VK_ERROR_OUT_OF_POOL_MEMORY"
    case -1000072003 => "VK_ERROR_INVALID_EXTERNAL_HANDLE"
    case -1000161000 => "VK_ERROR_FRAGMENTATION"
    case -1000257000 => "VK_ERROR_INVALID_OPAQUE_CAPTURE_ADDRESS"
    case -1000000000 => "VK_ERROR_SURFACE_LOST_KHR"
    case -1000000001 => "VK_ERROR_NATIVE_WINDOW_IN_USE_KHR"
    case 1000001003 => "VK_SUBOPTIMAL_KHR"
    case -1000001004 => "VK_ERROR_OUT_OF_DATE_KHR"
    case -1000003001 => "VK_ERROR_INCOMPATIBLE_DISPLAY_KHR"
    case -1000011001 => "VK_ERROR_VALIDATION_FAILED_EXT"
    case -1000012000 => "VK_ERROR_INVALID_SHADER_NV"
    case -1000158000 => "VK_ERROR_INVALID_DRM_FORMAT_MODIFIER_PLANE_LAYOUT_EXT"
    case -1000174001 => "VK_ERROR_NOT_PERMITTED_EXT"
    case -1000255000 => "VK_ERROR_FULL_SCREEN_EXCLUSIVE_MODE_LOST_EXT"
    case 1000268000 => "VK_THREAD_IDLE_KHR"
    case 1000268001 => "VK_THREAD_DONE_KHR"
    case 1000268002 => "VK_OPERATION_DEFERRED_KHR"
    case 1000268003 => "VK_OPERATION_NOT_DEFERRED_KHR"
    case 1000297000 => "VK_PIPELINE_COMPILE_REQUIRED_EXT"
    case 0x7FFF_FFFF => "VK_RESULT_MAX_ENUM"
    case _ => ""
  }

  /** The VkResult enumerators the switch lists. */
  const LISTED_RESULTS: set<Enum> := {
      VK_SUCCESS, VK_NOT_READY, VK_TIMEOUT,
      VK_EVENT_SET, VK_EVENT_RESET, VK_INCOMPLETE,
      VK_ERROR_OUT_OF_HOST_MEMORY, VK_ERROR_OUT_OF_DEVICE_MEMORY, VK_ERROR_INITIALIZATION_FAILED,
      VK_ERROR_DEVICE_LOST, VK_ERROR_MEMORY_MAP_FAILED, VK_ERROR_LAYER_NOT_PRESENT,
      VK_ERROR_EXTENSION_NOT_PRESENT, VK_ERROR_FEATURE_NOT_PRESENT, VK_ERROR_INCOMPATIBLE_DRIVER,
      VK_ERROR_TOO_MANY_OBJECTS, VK_ERROR_FORMAT_NOT_SUPPORTED, VK_ERROR_FRAGMENTED_POOL,
      VK_ERROR_UNKNOWN, VK_ERROR_OUT_OF_POOL_MEMORY, VK_ERROR_INVALID_EXTERNAL_HANDLE,
      VK_ERROR_FRAGMENTATION, VK_ERROR_INVALID_OPAQUE_CAPTURE_ADDRESS, VK_ERROR_SURFACE_LOST_KHR,
      VK_ERROR_NATIVE_WINDOW_IN_USE_KHR, VK_SUBOPTIMAL_KHR, VK_ERROR_OUT_OF_DATE_KHR,
      VK_ERROR_INCOMPATIBLE_DISPLAY_KHR, VK_ERROR_VALIDATION_FAILED_EXT, VK_ERROR_INVALID_SHADER_NV,
      VK_ERROR_INVALID_DRM_FORMAT_MODIFIER_PLANE_LAYOUT_EXT, VK_ERROR_NOT_PERMITTED_EXT, VK_ERROR_FULL_SCREEN_EXCLUSIVE_MODE_LOST_EXT,
      VK_THREAD_IDLE_KHR, VK_THREAD_DONE_KHR, VK_OPERATION_DEFERRED_KHR,
      VK_OPERATION_NOT_DEFERRED_KHR, VK_PIPELINE_COMPILE_REQUIRED_EXT, VK_RESULT_MAX_ENUM
  }

  /** Every listed enumerator has a non-empty name. */
  lemma ListedResultsNamed(res: Enum)
    requires res in LISTED_RESULTS
    ensures GetVkResultString(res) != ""
  {
  }

  /** A code outside the listed enumerators is named "" (the `default` case). */
  lemma UnlistedResultsUnnamed(res: Enum)
    requires res !in LISTED_RESULTS
    ensures GetVkResultString(res) == ""
  {
  }

  /**
   * The text a fatal stop prints: PANIC_IF_NOT_SUCCESS prints the name of the
   * failing code, PANIC its message; exit(-1) and a failed assert print no message
   * of their own in this model.
   */
  function FailureMessage(f: Failure): string
  {
    match f
    case NotSuccess(res) => GetVkResultString(res)
    case Panic(message) => message
    case Exit(_) => ""
    case AssertionFailed => ""
  }

  /**
   * A PANIC_IF_NOT_SUCCESS stop prints a non-empty message exactly when the failing
   * code is one of the listed enumerators.
   */
  lemma NotSuccessMessage(res: Enum)
    requires res != VK_SUCCESS
    ensures PanicIfNotSuccess(res) == Failed(NotSuccess(res))
    ensures FailureMessage(PanicIfNotSuccess(res).failure) == GetVkResultString(res)
    ensures FailureMessage(PanicIfNotSuccess(res).failure) != "" <==> res in LISTED_RESULTS
  {
    if res in LISTED_RESULTS {
      ListedResultsNamed(res);
    } else {
      UnlistedResultsUnnamed(res);
    }
  }
}
