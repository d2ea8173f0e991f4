/**
 * The status_t codes of utils/Errors.h used by the modelled components (Linux errno values,
 * negated). utils/Errors.h is not part of this model; the values are its published ones.
 */
module StatusCodes {

  const NO_ERROR: int := 0
  const BAD_VALUE: int := -22          // -EINVAL
  const ALREADY_EXISTS: int := -17     // -EEXIST
  const UNKNOWN_ERROR: int := -0x8000_0000
  const EAGAIN: int := 11
}
