/**
 * Registration of a processed raster as a WMS layer in the MapServer
 * mapfile (processor/mapserver.py). The mapfile is held as a parsed
 * document; reading it from and writing it back to the server is a store
 * whose contents and history of saves are observable.
 */
module Mapserver {
  import opened Wrappers
  import Supabase

  /** A value in the parsed mapfile document. */
  datatype Node =
    | Text(s: string)
    | Null
    | List(items: seq<Node>)
    | Dict(entries: map<string, Node>)

  /** The top level of a mapfile: keyword to value. */
  type Document = map<string, Node>

  /** `mappy["layers"].append(...)` fails when the stored value is not a list. */
  datatype MapError = LayersNotAList

  /** The keys every generated layer carries. */
  const LAYER_KEYS: set<string> :=
    {"__type__", "type", "name", "status", "data", "processing", "metadata", "template"}

  /** The layer's name when it has one given as text. */
  function NameOf(n: Node): Option<string>
  {
    if n.Dict? && "name" in n.entries && n.entries["name"].Text? then Some(n.entries["name"].s) else None
  }

  /**
   * The layer dictionary built for a processed file: a raster layer named
   * after the file, switched on, drawing bands 1-3 of the processed file
   * and titled with the file id in its WMS metadata.
   */
  function LayerFor(fileId: string, processedPath: Option<string>): (n: Node)
    ensures n.Dict? && n.entries.Keys == LAYER_KEYS
    ensures NameOf(n) == Some(fileId)
    ensures n.entries["data"] == if processedPath.Some? then Text(processedPath.value) else Null
    ensures n.entries["metadata"] == Dict(map["wms_title" := Text(fileId)])
    ensures n.entries["__type__"] == Text("layer") && n.entries["type"] == Text("raster")
    ensures n.entries["status"] == Text("on") && n.entries["template"] == Text("empty")
    ensures n.entries["processing"] == List([Text("BANDS=1,2,3")])
  {
    Dict(map[
      "__type__" := Text("layer"),
      "type" := Text("raster"),
      "name" := Text(fileId),
      "status" := Text("on"),
      "data" := if processedPath.Some? then Text(processedPath.value) else Null,
      "processing" := List([Text("BANDS=1,2,3")]),
      "metadata" := Dict(map["wms_title" := Text(fileId)]),
      "template" := Text("empty")
    ])
  }

  /** The layers a document declares; none when the key is missing. */
  function LayersOf(doc: Document): seq<Node>
  {
    if "layers" in doc && doc["layers"].List? then doc["layers"].items else []
  }

  /** How many of `layers` are named `name`. */
  function CountNamed(layers: seq<Node>, name: string): (k: nat)
    ensures k <= |layers|
  {
    if layers == [] then 0
    else CountNamed(layers[..|layers| - 1], name) + (if NameOf(layers[|layers| - 1]) == Some(name) then 1 else 0)
  }

  /**
   * The document after registering `layer`: a fresh one-element list when
   * there is no `layers` key, the existing list extended at its end
   * otherwise.
   */
  function WithLayer(doc: Document, layer: Node): (r: Result<Document, MapError>)
    ensures r.Err? <==> "layers" in doc && !doc["layers"].List?
    ensures r.Ok? ==> "layers" in r.value && r.value["layers"].List?
    ensures r.Ok? ==> LayersOf(r.value) == LayersOf(doc) + [layer]
    ensures r.Ok? ==> r.value - {"layers"} == doc - {"layers"}
  {
    if "layers" !in doc then Ok(doc["layers" := List([layer])])
    else if doc["layers"].List? then Ok(doc["layers" := List(doc["layers"].items + [layer])])
    else Err(LayersNotAList)
  }

  lemma {:induction false} CountNamedAppend(layers: seq<Node>, layer: Node, name: string)
    ensures CountNamed(layers + [layer], name)
         == CountNamed(layers, name) + (if NameOf(layer) == Some(name) then 1 else 0)
  {
    assert (layers + [layer])[..|layers|] == layers;
  }

  /**
   * Registration never merges with an existing entry: the number of layers
   * named after the file grows by exactly one, whatever was there before.
   */
  lemma NoDeduplication(doc: Document, fileId: string, processedPath: Option<string>)
    requires WithLayer(doc, LayerFor(fileId, processedPath)).Ok?
    ensures CountNamed(LayersOf(WithLayer(doc, LayerFor(fileId, processedPath)).value), fileId)
         == CountNamed(LayersOf(doc), fileId) + 1
  {
    CountNamedAppend(LayersOf(doc), LayerFor(fileId, processedPath), fileId);
  }

  /** Registering the same file twice leaves two layers of that name where there were none. */
  lemma RegisterTwice(doc: Document, fileId: string, processedPath: Option<string>)
    requires WithLayer(doc, LayerFor(fileId, processedPath)).Ok?
    requires CountNamed(LayersOf(doc), fileId) == 0
    ensures var once := WithLayer(doc, LayerFor(fileId, processedPath)).value;
            WithLayer(once, LayerFor(fileId, processedPath)).Ok?
            && CountNamed(LayersOf(WithLayer(once, LayerFor(fileId, processedPath)).value), fileId) == 2
  {
    var once := WithLayer(doc, LayerFor(fileId, processedPath)).value;
    NoDeduplication(doc, fileId, processedPath);
    NoDeduplication(once, fileId, processedPath);
  }

  /** `ows_base_url + "LAYERS=" + file_id`: the WMS URL serving exactly one layer. */
  function WmsUrl(baseUrl: string, fileId: string): (url: string)
    ensures |url| == |baseUrl| + 7 + |fileId|
    ensures url[..|baseUrl|] == baseUrl && url[|baseUrl|..|baseUrl| + 7] == "LAYERS="
    ensures url[|baseUrl| + 7..] == fileId
  {
    baseUrl + "LAYERS=" + fileId
  }

  /** Which layer a URL under `baseUrl` asks for, if it is a single-layer URL. */
  function LayerInUrl(baseUrl: string, url: string): Option<string>
  {
    var n := |baseUrl| + |"LAYERS="|;
    if n <= |url| && url[..n] == baseUrl + "LAYERS=" then Some(url[n..]) else None
  }

  /** The URL names the registered layer, and nothing more. */
  lemma WmsUrlNamesLayer(baseUrl: string, fileId: string)
    ensures LayerInUrl(baseUrl, WmsUrl(baseUrl, fileId)) == Some(fileId)
    ensures WmsUrl(baseUrl, fileId)[..|baseUrl|] == baseUrl
  {
    var url := WmsUrl(baseUrl, fileId);
    var n := |baseUrl| + |"LAYERS="|;
    assert url[..n] == baseUrl + "LAYERS=";
    assert url[n..] == fileId;
  }

  /** The MapServer's mapfile, as `get_mapfile` reads it and `put_mapfile` writes it. */
  class MapfileStore {
    var document: Document
    /** Every document written back, oldest first. */
    var saves: seq<Document>

    constructor (document: Document)
      ensures this.document == document && saves == []
    {
      this.document := document;
      saves := [];
    }

    /** `get_mapfile()`. */
    method Get() returns (doc: Document)
      ensures doc == document
    {
      doc := document;
    }

    /** `put_mapfile(doc)`. */
    method Put(doc: Document)
      modifies this
      ensures document == doc && saves == old(saves) + [doc]
    {
      document := doc;
      saves := saves + [doc];
    }
  }

  /**
   * `add_wms_layer(metadata)`: load the mapfile, add the file's layer and
   * save the document once; when `layers` holds something other than a
   * list the append fails and nothing is saved.
   */
  method AddWmsLayer(store: MapfileStore, metadata: Supabase.Metadata) returns (r: Result<(), MapError>)
    modifies store
    ensures var after := WithLayer(old(store.document), LayerFor(metadata.fileId, metadata.processedPath));
            (r.Ok? <==> after.Ok?)
            && (after.Ok? ==> store.document == after.value && store.saves == old(store.saves) + [after.value])
            && (after.Err? ==> store.document == old(store.document) && store.saves == old(store.saves))
  {
    var mappy := store.Get();
    var layer := LayerFor(metadata.fileId, metadata.processedPath);
    if "layers" !in mappy {
      mappy := mappy["layers" := List([layer])];
    } else {
      var layers := mappy["layers"];
      if !layers.List? {
        return Err(LayersNotAList);
      }
      mappy := mappy["layers" := List(layers.items + [layer])];
    }
    store.Put(mappy);
    r := Ok(());
  }

  /**
   * `create_wms_source(metadata)`: register the layer, then answer the URL
   * that serves it. A failed registration fails the whole call.
   */
  method CreateWmsSource(store: MapfileStore, metadata: Supabase.Metadata, baseUrl: string) returns (r: Result<string, MapError>)
    modifies store
    ensures var after := WithLayer(old(store.document), LayerFor(metadata.fileId, metadata.processedPath));
            (r.Ok? <==> after.Ok?)
            && (after.Ok? ==> store.document == after.value && store.saves == old(store.saves) + [after.value])
            && (after.Err? ==> store.document == old(store.document) && store.saves == old(store.saves))
    ensures r.Ok? ==> r.value == WmsUrl(baseUrl, metadata.fileId)
  {
    var added := AddWmsLayer(store, metadata);
    if added.Err? {
      return Err(added.error);
    }
    r := Ok(WmsUrl(baseUrl, metadata.fileId));
  }
}
