/**
 * `com.kraken.loader.ByteArrayClassLoader`: a class loader whose only source of
 * classes is an in-memory map from binary class name to class-file bytes.
 */
module ClassLoading {

  type Bytes = seq<bv8>

  /** The loader a `ByteArrayClassLoader` delegates to first: always the one that defined the class itself. */
  datatype ParentLoader = DefiningLoaderOfByteArrayClassLoader

  /**
   * What `findClass` does with a name: define the class from a slice of bytes
   * (`defineClass(name, bytes, offset, length)`), or report it missing by
   * raising `ClassNotFoundException`.
   */
  datatype FindResult =
    | Defined(name: string, bytes: Bytes, offset: nat, length: nat)
    | ClassNotFound(name: string)

  class ByteArrayClassLoader {
    /** The map given to the constructor; no method of the loader changes it. */
    const classData: map<string, Bytes>
    /** The URL search path handed to `URLClassLoader`: always empty. */
    const urls: seq<string>
    const parent: ParentLoader

    constructor (classData: map<string, Bytes>)
      ensures this.classData == classData
      ensures urls == []
    {
      this.classData := classData;
      this.urls := [];
      this.parent := DefiningLoaderOfByteArrayClassLoader;
    }

    /**
     * A name held in `classData` is defined from exactly its bytes, from
     * offset 0 over the full length; any other name falls through to
     * `URLClassLoader.findClass`, which searches the (empty) URL list and
     * finds nothing.
     */
    function FindClass(name: string): (r: FindResult)
      ensures r.name == name
      ensures r.Defined? <==> name in classData
      ensures r.Defined? ==> r.bytes == classData[name] && r.offset == 0 && r.length == |r.bytes|
    {
      if name in classData then
        var bytes := classData[name];
        Defined(name, bytes, 0, |bytes|)
      else
        // URLClassLoader.findClass searches `urls`, which is empty.
        ClassNotFound(name)
    }
  }
}
