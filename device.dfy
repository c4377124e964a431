/** Platform facts the app branches on: the operating system, runtime
    permission answers, and the alert dialogs it raises. */
module Device {

  /** `Platform.OS`: Android, iOS, or any other target (web, windows, macos). */
  datatype OS = Android | IOS | OtherOS

  /** An answer of `PermissionsAndroid.requestMultiple` for one permission. */
  datatype PermissionResult = Granted | Denied | NeverAskAgain

  /** The answers for fine, coarse and background location. */
  datatype Grants = Grants(fine: PermissionResult, coarse: PermissionResult, background: PermissionResult)

  /** All three location permissions were answered GRANTED. */
  predicate AllGranted(g: Grants) {
    g.fine == Granted && g.coarse == Granted && g.background == Granted
  }

  /** An `Alert.alert(title, message)` shown to the user. */
  datatype Notice = Notice(title: string, message: string)
}
