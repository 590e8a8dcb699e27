/** The choice of XML signature and digest method from a certificate's public-key algorithm. */
module Algorithms {

  import opened Strings

  /** The namespace under which every signature and digest method URI is published. */
  const AlgorithmsPrefix: string := "urn:ietf:params:xml:ns:cpxmlsec:algorithms:"

  /** GOST R 34.10-2012 with a 256-bit key. */
  const Gost2012With256BitKey: string := "1.2.643.7.1.1.1.1"
  /** GOST R 34.10-2012 with a 512-bit key. */
  const Gost2012With512BitKey: string := "1.2.643.7.1.1.1.2"
  /** GOST R 34.10-2001. */
  const Gost2001: string := "1.2.643.2.2.19"

  datatype AlgorithmMapping = AlgorithmMapping(signatureMethod: string, digestMethod: string)

  /** The supported public-key algorithms and their method URIs, as a table. */
  const Registry: map<string, AlgorithmMapping> := map[
    Gost2012With256BitKey := AlgorithmMapping(
      AlgorithmsPrefix + "gostr34102012-gostr34112012-256", AlgorithmsPrefix + "gostr34112012-256"),
    Gost2012With512BitKey := AlgorithmMapping(
      AlgorithmsPrefix + "gostr34102012-gostr34112012-512", AlgorithmsPrefix + "gostr34112012-512"),
    Gost2001 := AlgorithmMapping(
      AlgorithmsPrefix + "gostr34102001-gostr3411", AlgorithmsPrefix + "gostr3411")
  ]

  /** The if-chain of the signing step: both methods start empty and are assigned only for a
      supported OID; `supported` is false exactly in the branch that reports the
      unsupported algorithm. */
  method SelectMethods(algoOid: string) returns (signMethod: string, digestMethod: string, supported: bool)
    ensures supported <==> algoOid in Registry
    ensures supported ==> signMethod == Registry[algoOid].signatureMethod
    ensures supported ==> digestMethod == Registry[algoOid].digestMethod
    ensures !supported ==> signMethod == "" && digestMethod == ""
  {
    signMethod := "";
    digestMethod := "";
    supported := true;
    if algoOid == Gost2012With256BitKey {
      signMethod := AlgorithmsPrefix + "gostr34102012-gostr34112012-256";
      digestMethod := AlgorithmsPrefix + "gostr34112012-256";
    } else if algoOid == Gost2012With512BitKey {
      signMethod := AlgorithmsPrefix + "gostr34102012-gostr34112012-512";
      digestMethod := AlgorithmsPrefix + "gostr34112012-512";
    } else if algoOid == Gost2001 {
      signMethod := AlgorithmsPrefix + "gostr34102001-gostr3411";
      digestMethod := AlgorithmsPrefix + "gostr3411";
    } else {
      supported := false;
    }
  }

  /** The registry knows exactly the three GOST algorithms. */
  lemma RegistryKeys()
    ensures Registry.Keys == {Gost2012With256BitKey, Gost2012With512BitKey, Gost2001}
  {
  }

  /** Every method URI of the registry is published under the common prefix, and is more
      than the bare prefix. */
  lemma RegistryUnderPrefix(oid: string)
    requires oid in Registry
    ensures StartsWith(Registry[oid].signatureMethod, AlgorithmsPrefix)
    ensures StartsWith(Registry[oid].digestMethod, AlgorithmsPrefix)
    ensures |Registry[oid].signatureMethod| > |AlgorithmsPrefix|
    ensures |Registry[oid].digestMethod| > |AlgorithmsPrefix|
  {
  }

  /** GOST R 34.10-2001 signs with `gostr34102001-gostr3411` and digests with `gostr3411`. */
  lemma Gost2001Methods()
    ensures Registry[Gost2001].signatureMethod == AlgorithmsPrefix + "gostr34102001-gostr3411"
    ensures Registry[Gost2001].digestMethod == AlgorithmsPrefix + "gostr3411"
  {
  }

  /** No method URI of the registry holds a double quote, so each fits a quoted XML
      attribute value. */
  lemma RegistryUnquoted(oid: string)
    requires oid in Registry
    ensures '"' !in Registry[oid].signatureMethod && '"' !in Registry[oid].digestMethod
  {
    assert '"' !in AlgorithmsPrefix;
    if oid == Gost2012With256BitKey {
      assert '"' !in "gostr34102012-gostr34112012-256" && '"' !in "gostr34112012-256";
    } else if oid == Gost2012With512BitKey {
      assert '"' !in "gostr34102012-gostr34112012-512" && '"' !in "gostr34112012-512";
    } else {
      assert '"' !in "gostr34102001-gostr3411" && '"' !in "gostr3411";
    }
  }
}
