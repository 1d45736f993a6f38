/** Values the JavaScript source may leave `null` or `undefined`. */
module Optional {

  /** `None` stands for `null` or `undefined`. */
  datatype Option<+T> = None | Some(value: T)
}

/** The part of React Native's `Platform` module the library reads. */
module ReactNative {

  /** `Platform.OS`: the library only distinguishes 'android' and 'ios'. */
  datatype Platform = Android | IOS | Other
}
