/** The archive formats pg_dump can write. */
module FileFormats {

  datatype FileFormat =
    | Plain      // a plain-text SQL script
    | Custom     // a custom-format archive for pg_restore, compressed by default
    | Directory  // a directory-format archive
    | Tar        // a tar-format archive, without compression
}
