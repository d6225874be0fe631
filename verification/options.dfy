/** Optional values, used wherever the modelled code may have nothing to report. */
module Options {

  datatype Option<+T> = None | Some(value: T)

}
