/** The exceptions the packer can raise, one constructor per kind. */
module Errors {

  datatype Error =
    /** A path that has to exist does not (`FileNotFoundError`). */
    | NotFound(path: string)
    /** A file operation met a directory (`IsADirectoryError`). */
    | IsADirectory(path: string)
    /** A directory operation met a file on the way. */
    | NotADirectory(path: string)
    /** `shutil.move` into a directory that already holds the name. */
    | AlreadyExists(path: string)
    /** `shutil.copy` onto the file it copies from (`SameFileError`). */
    | SameFile(path: string)
    /** A template placeholder with no replacement (`KeyError`). */
    | MissingKey(token: string)
    /** The isolated runtime could not be built; carries the failing step. */
    | EnvFailed(reason: string)
    /** `cmake` configure returned nonzero. */
    | ConfigureFailed(code: int)
    /** `cmake --build` returned nonzero. */
    | BuildFailed(code: int)
    /** The build reported success but its executable is not a file. */
    | ArtifactMissing(path: string)
}
