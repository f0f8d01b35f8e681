/**
  The notification collaborator. Delivery is outside the model: a call to
  `noti.warn` or `noti.info` is recorded as a value of this type.
 */
module Noti {

  datatype Notification =
    | Warn(networkId: string, message: string)
    | Info(networkId: string, title: string, message: string)
}
