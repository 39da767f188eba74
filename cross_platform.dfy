/** How the two controllers compare on the flash command, the one the host
 *  application drives through the same method-channel call on both
 *  platforms.
 */
module CrossPlatform {
  import CameraCommon
  import IosCamera
  import AndroidCamera

  /** Both controllers report the same flash mode string. */
  predicate SameReportedFlash(i: IosCamera.FlashSetting, a: AndroidCamera.FlashSetting)
  {
    IosCamera.FlashModeString(i) == AndroidCamera.FlashModeString(a)
  }

  /** From a state both controllers report alike, the same `setFlashMode`
   *  keeps them alike, except "on" while the torch is lit: iOS keeps the torch
   *  and reports "torch", Android turns it off and reports "on". */
  lemma FlashPlatformsAgree(mode: string, i: IosCamera.FlashSetting, a: AndroidCamera.FlashSetting)
    requires SameReportedFlash(i, a)
    ensures var q := CameraCommon.ParseFlashRequest(mode);
            (SameReportedFlash(IosCamera.FlashUpdate(q, i), AndroidCamera.FlashUpdate(q, a))
             <==> mode != "on" || i.torch != IosCamera.TorchOn)
  {
  }
}
