/** The `fixCjsCompositionApi` plugin of the Vue 2 playground
    (src/generators/templates/project/vue2-playground/vite.config.ts): after
    a CommonJS build it rewrites, in place, the code of the `index.cjs.js`
    chunk so that it requires the composition API by its package name
    rather than by its ES-module file. */
module Vue2Playground {
  import opened Wrappers
  import opened Strings
  import opened ViteBase

  /** An entry of Rollup's output bundle. */
  datatype OutputItem =
    | Chunk(fileName: string, code: string)
    | Asset(fileName: string, source: string)

  const TargetKey := "index.cjs.js"
  const LongPath := "@vue/composition-api/dist/vue-composition-api.mjs"
  const ShortPath := "@vue/composition-api"

  /** The rewrite of one chunk's code. */
  function FixCode(code: string): string {
    ReplaceAll(code, LongPath, ShortPath)
  }

  /** The bundle after `generateBundle(options, bundle)`. */
  function FixCjs(format: string, bundle: map<string, OutputItem>): map<string, OutputItem> {
    if format == "cjs" && TargetKey in bundle && bundle[TargetKey].Chunk? then
      bundle[TargetKey := bundle[TargetKey].(code := FixCode(bundle[TargetKey].code))]
    else bundle
  }

  /** Rollup's output bundle: its entries and the order `Object.keys`
      lists them in. */
  class OutputBundle {
    var entries: map<string, OutputItem>
    var keys: seq<string>

    /** `Object.keys(bundle)` lists every key exactly once. */
    ghost predicate Valid()
      reads this
    {
      Distinct(keys) && (forall k :: k in entries <==> k in keys)
    }

    constructor (entries: map<string, OutputItem>, keys: seq<string>)
      requires Distinct(keys) && (forall k :: k in entries <==> k in keys)
      ensures Valid() && this.entries == entries && this.keys == keys
    {
      this.entries := entries;
      this.keys := keys;
    }

    /** `generateBundle(options, bundle)`: for a CommonJS build, walk the
        keys and rewrite the matching chunk's code in place. */
    method GenerateBundle(format: string)
      requires Valid()
      modifies this
      ensures Valid()
      ensures entries == FixCjs(format, old(entries))
      ensures keys == old(keys)
    {
      if format == "cjs" {
        var i := 0;
        while i < |keys|
          invariant 0 <= i <= |keys| && Valid() && keys == old(keys)
          invariant entries == (if TargetKey in keys[..i] then FixCjs(format, old(entries)) else old(entries))
        {
          var key := keys[i];
          if key == TargetKey && entries[key].Chunk? {
            entries := entries[key := entries[key].(code := FixCode(entries[key].code))];
          }
          assert keys[..i + 1] == keys[..i] + [key];
          i := i + 1;
        }
        assert keys[..i] == keys;
      }
    }
  }

  // ---------------------------------------------------------------------
  // Properties

  /** No key is added or removed, and every entry other than the CommonJS
      chunk is left as it was; the chunk keeps its file name. */
  lemma FixTouchesOnlyTheChunk(format: string, bundle: map<string, OutputItem>)
    ensures FixCjs(format, bundle).Keys == bundle.Keys
    ensures forall k :: k in bundle && k != TargetKey ==> FixCjs(format, bundle)[k] == bundle[k]
    ensures TargetKey in bundle ==> FixCjs(format, bundle)[TargetKey].fileName == bundle[TargetKey].fileName
    ensures TargetKey in bundle && !bundle[TargetKey].Chunk? ==> FixCjs(format, bundle)[TargetKey] == bundle[TargetKey]
  {
  }

  /** Other output formats are left alone. */
  lemma OtherFormatsUntouched(format: string, bundle: map<string, OutputItem>)
    requires format != "cjs"
    ensures FixCjs(format, bundle) == bundle
  {
  }

  /** Code that never names the module file is left as it is, and the
      rewrite only ever shortens code: strictly exactly when it named it. */
  lemma FixCodeShortens(code: string)
    ensures !Contains(code, LongPath) ==> FixCode(code) == code
    ensures |FixCode(code)| <= |code|
    ensures |FixCode(code)| < |code| <==> Contains(code, LongPath)
  {
    if !Contains(code, LongPath) {
      ReplaceAllWithoutOccurrence(code, LongPath, ShortPath);
    }
    ReplaceAllShortens(code, LongPath, ShortPath);
  }

  /** A bundle whose CommonJS chunk never names the module file comes out
      unchanged. */
  lemma NothingToFix(format: string, bundle: map<string, OutputItem>)
    requires TargetKey in bundle && bundle[TargetKey].Chunk? && !Contains(bundle[TargetKey].code, LongPath)
    ensures FixCjs(format, bundle) == bundle
  {
    FixCodeShortens(bundle[TargetKey].code);
    assert bundle[TargetKey].(code := FixCode(bundle[TargetKey].code)) == bundle[TargetKey];
  }

  /** The playground names its library files `index.<format>.js`, so the
      key the plugin looks for is exactly this build's CommonJS output. */
  lemma TargetIsTheCommonJsFile(format: string)
    ensures LibFileName(format) == TargetKey <==> format == "cjs"
  {
    LibFileNames(format, "cjs");
    assert LibFileName("cjs") == TargetKey;
  }
}
