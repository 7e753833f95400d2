/**
 * Mirroring the host editor's map position onto the overlay map. The
 * host reports its centre in spherical Mercator (EPSG:900913); the
 * overlay takes latitude/longitude (EPSG:4326). The projection between
 * them belongs to a geometry library and is a parameter here.
 */
module Position {
  import opened Styles

  /** The host map's centre, `W.map.getCenter()`, in EPSG:900913 coordinates. */
  datatype Mercator = Mercator(lon: real, lat: real)

  /** An OpenLayers `LonLat` after `transform` to EPSG:4326. */
  datatype LonLat = LonLat(lon: real, lat: real)

  /** The overlay provider's `LatLng(lat, lng)`. */
  datatype LatLng = LatLng(lat: real, lng: real)

  /** What the position sync reads from the host map: centre and zoom level. */
  datatype HostView = HostView(center: Mercator, zoom: int)

  /** The overlay map's observable state: centre, zoom and the style list it renders. */
  datatype MapView = MapView(center: LatLng, zoom: int, styles: seq<Style>)

  /** `new google.maps.LatLng(lonlat.lat, lonlat.lon)`: the same point, fields in the other order. */
  function ToLatLng(p: LonLat): LatLng {
    LatLng(p.lat, p.lon)
  }

  /** The overlay after one `synchronizeMapPosition` with both maps present (WME-GMAPS-LAYERS.js:229-231). */
  function Synced(overlay: MapView, host: HostView, project: Mercator -> LonLat): (r: MapView)
    ensures r.zoom == host.zoom
    ensures r.center.lat == project(host.center).lat && r.center.lng == project(host.center).lon
    ensures r.styles == overlay.styles
  {
    overlay.(center := ToLatLng(project(host.center)), zoom := host.zoom)
  }

  /** Synchronizing twice against an unchanged host is the same as synchronizing once. */
  lemma SyncedIdempotent(overlay: MapView, host: HostView, project: Mercator -> LonLat)
    ensures Synced(Synced(overlay, host, project), host, project) == Synced(overlay, host, project)
  {
  }

  /** The new position depends on the host alone: the overlay's previous position is never read. */
  lemma SyncedIgnoresOverlayPosition(a: MapView, b: MapView, host: HostView, project: Mercator -> LonLat)
    requires a.styles == b.styles
    ensures Synced(a, host, project) == Synced(b, host, project)
  {
  }
}
