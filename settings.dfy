/**
 The worker's configuration: the version-named cache, its namespace prefix and the two
 asset manifests. The model is parameterised over a `Config`; `Sw` holds the values
 shipped in sw.js.
 */
module Settings {
  import opened Urls

  datatype Config = Config(cacheName: string, prefix: string, local: seq<string>, cdn: seq<string>)

  const CacheName: string := "sinistri-pwa-cache-v12"
  const CachePrefix: string := "sinistri-pwa-cache-"

  const LocalUrls: seq<string> := ["./", "./index.html", "./manifest.json", "./icon-192.png", "./icon-512.png"]

  const CdnUrls: seq<string> := [
    "https://cdn.tailwindcss.com/",
    "https://unpkg.com/dexie@3/dist/dexie.js",
    "https://unpkg.com/lucide@latest",
    "https://cdnjs.cloudflare.com/ajax/libs/jszip/3.10.1/jszip.min.js",
    "https://cdnjs.cloudflare.com/ajax/libs/FileSaver.js/2.0.0/FileSaver.min.js",
    "https://cdnjs.cloudflare.com/ajax/libs/jspdf/2.5.1/jspdf.umd.min.js"
  ]

  const Sw: Config := Config(CacheName, CachePrefix, LocalUrls, CdnUrls)
}
