/** What every model inherits from `BaseModel`: its primary key. */
module BaseModels {
  /** A primary key (a UUID in the source); only its identity matters here. */
  type Id = nat
}
