/**
 * The third-party helpers the scripts call, kept uninterpreted: each is a
 * function value handed to the model, so nothing is assumed about it beyond
 * being a function of its arguments.
 */
module Library {

  datatype Lib = Lib(
    /** `@sindresorhus/slugify` with its default options (the scripts' `sanitize`). */
    slugify: string -> string,
    /** `slugify(s, { preserveCharacters: ["."] })`. */
    slugifyKeepingDots: string -> string,
    /** `isUrl` from `@acdh-oeaw/lib`. */
    isUrl: string -> bool,
    /** `basename(new URL(url).pathname)` for a string that `isUrl` accepts. */
    urlBasename: string -> string,
    /** `path.join(folder, file)`. */
    join: (string, string) -> string
  )
}
