/** The error codes of the kernel calls. */
module Errors {
  const EPERM := -1
  const ESRCH := -3
  const EAGAIN := -11
  const ENOMEM := -12
  const EACCES := -13
  const EINVAL := -22
}
