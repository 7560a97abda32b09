/** Failure-carrying values shared by every layer of the model. */
module Results {

  datatype Option<+T> = None | Some(value: T)

  /** The failures the database layer can report. The source returns them all as one
      untyped error (anyhow::Error); the model keeps their causes apart. */
  datatype DbError =
    | NoRows               // query_row found no row: the "not found" case
    | ForeignKeyViolation  // a referenced row does not exist
    | PrimaryKeyViolation  // a key that is already present was inserted again
    | DuplicateColumn      // ALTER TABLE ... ADD COLUMN of a column that exists
    | NoSuchTable          // a statement names a table that does not exist
    | DatabaseFull         // the AUTOINCREMENT key space is exhausted
    | EngineFault          // any other failure of the engine (I/O, locking, pool)

  datatype Result<+T> = Ok(value: T) | Err(error: DbError)
}
