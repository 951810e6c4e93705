/** The optional value used for the controller's last cursor sample and for the latest texture view in the device-operation history. */
module Optional {
  datatype Option<+T> = None | Some(value: T)
}
