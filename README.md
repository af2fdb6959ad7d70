# Agro-climate risk dashboard: verified model of the core logic

This project models, in Dafny, the logic of the agricultural-risk dashboard that
does not depend on the browser, the map library or the network:

- **Climate severity pipeline** (`ClimatUtils`, `climat.dfy`). Three index-aligned
  arrays of latitudes, longitudes and standardized index values become heat-map
  points: non-finite cells are dropped, values are clamped to [-8, 8], the
  intensity is `min(1, |v| / 5)`, and each point gets one of five severity buckets.
  The file also holds the extreme heat/cold predicates and the colour, label,
  recommendation and gradient tables. JavaScript numbers are
  `Finite(real) | NaN | PosInf | NegInf` (`Js.Num`, `js.dfy`).
- **Extreme overlays** (`ExtremeOverlays`, `overlays.dfy`): the heat and cold
  overlays the map view derives from the transformed points.
- **Heat-layer converter** (`HeatLayer`, `heatlayer.dfy`): the filter-then-map
  conversion to `[lat, lng, intensity]` triples used to feed the heat layer.
- **Paddock-in-parcel geometry** (`GeoValidation`, `geovalidation.dfy`): even-odd
  ray casting, vertex-wise containment and overlap, and the paddock validation.
  These are imperative methods, proved against specification functions.
- **GeoJSON checks** (`GeoJson`, `geojson.dfy`): structural validation of parsed
  JSON values and the polygon-extraction step of the file loader.
- **Application store** (`AppStore`, `store.dfy`): a class `Store` whose fields
  are the store's state and whose methods are the synchronous reducers. Each
  method's postcondition is the pure update, stated as a function of the old
  state. The functions and lemmas beside the class state what those updates
  mean.
- **Role permissions** (`Permissions`, `permissions.dfy`): the role-to-permission
  table and the viewer fallback of the authentication hook.
- **Deterministic mock data** (`MockClimatData`, `mockclimat.dfy`): forecast-step
  labels (a loop), the crop-layer catalogue and its lookups, and the analysis
  crops built around a polygon.
- **Text misreading** (`TextEncoding`, `encoding.dfy`): UTF-8 encoding
  (RFC 3629, section 3) followed by a Mac OS Roman decoding, used to state one
  of the findings below.
- `Types` (`types.dfy`) holds the closed string unions `RiskType` and `CropType`.

Coordinates and index values are exact reals throughout.

## Model

| member | source | states |
|---|---|---|
| ClimatUtils.Clamp | src/utils/climatUtils.ts:87 | The clamped value lies in [-8, 8]; it equals the input inside that range and the nearer bound outside it. |
| ClimatUtils.Intensity | src/utils/climatUtils.ts:93-94 | The intensity lies in [0, 1], is 0 exactly when the value is 0, and is 1 whenever the magnitude is at least 5. |
| ClimatUtils.IntensityMonotone | src/utils/climatUtils.ts:93-94 | A larger magnitude never gives a smaller intensity. |
| ClimatUtils.CategorizeSeverity | src/utils/climatUtils.ts:113-125 | VERY_LOW exactly for finite values of magnitude below 1; VERY_HIGH exactly for NaN, the infinities and magnitudes of at least 4. |
| ClimatUtils.SeverityBands | src/utils/climatUtils.ts:113-125 | Bucket k below VERY_HIGH holds exactly the magnitudes in [k, k+1); VERY_HIGH holds exactly the magnitudes of at least 4; VERY_LOW exactly those below 1. |
| ClimatUtils.SeveritySymmetric | src/utils/climatUtils.ts:113-125 | The bucket of -v equals the bucket of v. |
| ClimatUtils.SeverityMonotone | src/utils/climatUtils.ts:113-125 | A larger magnitude never gives a lower bucket. |
| ClimatUtils.SeverityOfNonFinite | src/utils/climatUtils.ts:113-125 | NaN and the infinities fail every threshold test and land in VERY_HIGH. |
| ClimatUtils.IsExtremeHeat | src/utils/climatUtils.ts:131-133 | An extreme-heat value is not NaN and is classified HIGH or above. |
| ClimatUtils.IsExtremeCold | src/utils/climatUtils.ts:139-141 | An extreme-cold value is not NaN and is classified HIGH or above. |
| ClimatUtils.ExtremesDisjoint | src/utils/climatUtils.ts:131-141 | Extreme heat holds exactly when v >= 3 and extreme cold exactly when v <= -3. No value is both, and NaN is neither. |
| ClimatUtils.ExtremeIsHighSeverity | src/utils/climatUtils.ts:113-141 | A value that is extreme in either direction is classified HIGH or above. |
| ClimatUtils.MinLength | src/utils/climatUtils.ts:47 | The number of examined indices is one of the three lengths and no larger than any of them. |
| ClimatUtils.PointAt | src/utils/climatUtils.ts:96-102 | An emitted point keeps the cell's coordinates and the clamped value. Its intensity and severity come from the clamped value, so it is well formed. |
| ClimatUtils.Transformed | src/utils/climatUtils.ts:75-104 | The first n indices yield at most n points, each well formed: value in [-8, 8], intensity in [0, 1] matching the value, severity from the clamped value. |
| ClimatUtils.ValidIndices | src/utils/climatUtils.ts:81-85 | Lists, ascending and complete, the indices below n whose three entries are finite. |
| ClimatUtils.TransformedSelectsFiniteIndices | src/utils/climatUtils.ts:75-104 | The k-th point comes from the k-th all-finite index. So exactly the all-finite indices contribute, each once, in index order. |
| ClimatUtils.TransformedCount | src/utils/climatUtils.ts:81-85 | The number of points equals the number of all-finite indices. |
| ClimatUtils.TransformedIgnoresTail | src/utils/climatUtils.ts:47 | Entries beyond the shortest array never influence the points. |
| ClimatUtils.TransformToHeatmapPoints | src/utils/climatUtils.ts:39-107 | The loop returns exactly the points of the first min-length indices. The result does not depend on `min`/`max`, has at most that many points, and every point is well formed. |
| ClimatUtils.TransformScenario | src/utils/climatUtils.ts:39-107 | Three cells with values 0, 100 and NaN give two points: value 0 with intensity 0 (VERY_LOW), and value 100 clamped to 8 with intensity 1 (VERY_HIGH). |
| ClimatUtils.ToLeafletHeatFormat | src/utils/climatUtils.ts:146-148 | Keeps length and order and maps each point to its latitude, longitude and intensity. |
| ClimatUtils.LeafletWeightsInUnitRange | src/utils/climatUtils.ts:146-148 | Every weight converted from a transform lies in [0, 1]. |
| ClimatUtils.SeverityColor | src/utils/climatUtils.ts:4-10 | Every bucket's colour is a seven-character `#RRGGBB` string of upper-case hexadecimal digits. |
| ClimatUtils.SeverityLabel | src/utils/climatUtils.ts:13-19 | Every bucket's label has at least four characters, and exactly the two extreme buckets are labelled with the prefix "Muy ". |
| ClimatUtils.RecommendationAsWritten | src/utils/climatUtils.ts:180-189 | Every recommendation as written is non-empty and opens with a low quotation mark, or with the Apple logo for VERY_HIGH: the first character of the misdecoded symbol. |
| ClimatUtils.Recommendation | src/utils/climatUtils.ts:180-189 | Every intended recommendation is non-empty and opens with a check mark (two lowest buckets), a warning sign (middle two) or a siren (highest). |
| ClimatUtils.TablesDistinguishBuckets | src/utils/climatUtils.ts:4-19 | Distinct buckets have distinct colours and distinct labels; no colour, label or recommendation is empty. |
| ClimatUtils.HeatmapGradient | src/utils/climatUtils.ts:153-161 | The gradient has exactly the stops 0, 0.25, 0.5, 0.75 and 1. |
| ClimatUtils.GradientFollowsSeverityOrder | src/utils/climatUtils.ts:153-161 | The stop at rank/4 carries that bucket's colour, so the colours ascend with severity. |
| ClimatUtils.RecommendationsMisdecoded | src/utils/climatUtils.ts:182-186 | Each recommendation as written is exactly the intended text encoded as UTF-8 and decoded as Mac OS Roman. |
| ClimatUtils.RecommendationsAltered | src/utils/climatUtils.ts:182-186 | No recommendation as written equals the intended text. |
| ClimatUtils.RecommendationSymbols | src/utils/climatUtils.ts:182-186 | The intended texts open with a check mark (two lowest buckets), a warning sign (middle two) or a siren (highest). The texts as written open with a quotation mark or the Apple logo instead. |
| ExtremeOverlays.HeatOverlayAsWritten | src/components/MapView.tsx:184 | Keeps exactly the points whose intensity is at least 3, each taken from the input. |
| ExtremeOverlays.ColdOverlayAsWritten | src/components/MapView.tsx:185 | Keeps exactly the points whose intensity is at most -3, each taken from the input. |
| ExtremeOverlays.HeatOverlay | src/components/MapView.tsx:184 | Keeps exactly the points whose signed value is at least 3, each taken from the input. |
| ExtremeOverlays.ColdOverlay | src/components/MapView.tsx:185 | Keeps exactly the points whose signed value is at most -3, each taken from the input. |
| ExtremeOverlays.OverlaysAsWrittenAlwaysEmpty | src/components/MapView.tsx:184-185 | For any grid, the heat and cold overlays built from intensities are both empty. |
| ExtremeOverlays.OverlaysSelectSignedTails | src/components/MapView.tsx:184-185 | Overlays keyed on the signed value hold exactly the points with value >= 3 (heat) or <= -3 (cold), and no point is in both. |
| ExtremeOverlays.OverlayDiscrepancy | src/components/MapView.tsx:184-185 | A single cell of value 5 is missing from the heat overlay as written but present in the corrected one. |
| HeatLayer.ToLeafletHeatFormat | src/utils/heatmapGenerator.ts:75-93 | A non-array argument yields []. Otherwise there are no more triples than entries; every triple has non-NaN coordinates and a positive, non-NaN weight. |
| HeatLayer.Project | src/utils/heatmapGenerator.ts:92 | Each kept entry becomes its `[lat, lng, intensity]` triple, in order. |
| HeatLayer.ConversionPreservesOrder | src/utils/heatmapGenerator.ts:81-92 | Converting a concatenation gives the concatenation of the conversions, so kept entries stay in input order. |
| HeatLayer.SingleEntry | src/utils/heatmapGenerator.ts:82-90 | One entry converts to its triple exactly when it is present, has three non-NaN numbers and a positive intensity; otherwise it converts to nothing. |
| HeatLayer.WeightBoundaries | src/utils/heatmapGenerator.ts:90 | A +Infinity weight is kept; zero, negative and -Infinity weights are dropped. |
| HeatLayer.LayerDropsZeroCells | src/utils/heatmapGenerator.ts:81-92 | Fed with transformed points, the layer shows exactly the points whose clamped value is non-zero, in order. |
| GeoValidation.CrossingDivisorNonZero | src/utils/geoValidation.ts:27-29 | Whenever the division is evaluated, its divisor is non-zero. |
| GeoValidation.CrossingBetweenEnds | src/utils/geoValidation.ts:27-29 | When the edge straddles the point's longitude, the latitude where it crosses that meridian lies between the latitudes of its two ends. |
| GeoValidation.CrossingBelowAnEnd | src/utils/geoValidation.ts:27-29 | An edge the northward ray crosses has at least one end north of the point. |
| GeoValidation.Intersect | src/utils/geoValidation.ts:22-29 | A crossing needs the edge's two ends on opposite sides of the point's longitude (so the ends differ in longitude), and at least one end north of the point. |
| GeoValidation.IsPointInsidePolygon | src/utils/geoValidation.ts:17-35 | The result is the parity of the number of outer-ring edges the ray crosses; an empty ring gives false. |
| GeoValidation.NoStraddleNoCrossing | src/utils/geoValidation.ts:21-32 | When no edge straddles the point's longitude, the ray crosses no edge. |
| GeoValidation.OutsideWhenNoStraddle | src/utils/geoValidation.ts:17-35 | A point whose longitude is strictly west of every vertex, or at or east of every vertex, is outside. |
| GeoValidation.UnitSquare | src/utils/geoValidation.ts:17-35 | The centre (0.5, 0.5) of the closed unit square is inside, while the point east of it (lng 2) and the point north of it (lat 2) are outside. |
| GeoValidation.IsPolygonInsidePolygon | src/utils/geoValidation.ts:40-55 | True exactly when every vertex of the inner outer ring is inside the outer polygon; vacuously true for an empty ring. |
| GeoValidation.OverlapSymmetric | src/utils/geoValidation.ts:60-81 | Overlap does not depend on the argument order. |
| GeoValidation.DoPolygonsOverlap | src/utils/geoValidation.ts:60-81 | True exactly when some vertex of either polygon is inside the other; symmetric. |
| GeoValidation.ValidatePaddockInParcel | src/utils/geoValidation.ts:86-110 | Not contained gives the containment error whatever the overlaps. Contained but overlapping an existing paddock gives the overlap error. Valid exactly when contained and overlapping none. With no existing paddocks, valid exactly when contained. |
| GeoJson.ValidateGeoJson | src/utils/geoJsonLoader.ts:55-86 | Acceptance needs an object whose `type` is Polygon, Feature or FeatureCollection; a TypeError only arises for a FeatureCollection. |
| GeoJson.ValidatePolygonCoordinates | src/utils/geoJsonLoader.ts:91-108 | Passing coordinates are present and form a non-empty array of rings. |
| GeoJson.ExtractPolygon | src/utils/geoJsonLoader.ts:27-36 | A resolved polygon has `type` Polygon; the only rejection is the no-polygon error. |
| GeoJson.ParseGeoJson | src/utils/geoJsonLoader.ts:14-41 | The loader resolves only on parsed, accepted input; a failed parse rejects with the read error, and a `false` validation rejects with the invalid-file error. |
| GeoJson.RejectsNonObjectsAndOtherTypes | src/utils/geoJsonLoader.ts:55-64 | Non-objects are rejected, and so is any `type` other than Polygon, Feature or FeatureCollection. |
| GeoJson.PolygonAndFeatureVerdicts | src/utils/geoJsonLoader.ts:66-75 | A Polygon is accepted exactly when its coordinates pass. A Feature is accepted exactly when its geometry is a Polygon whose coordinates pass. |
| GeoJson.OnlyFirstFeatureCounts | src/utils/geoJsonLoader.ts:77-83 | A FeatureCollection's verdict depends only on its first feature. A null first feature throws; otherwise the collection is accepted exactly when that feature's geometry is a valid Polygon. |
| GeoJson.EmptyCollectionRejected | src/utils/geoJsonLoader.ts:78-80 | A missing or empty feature list is rejected. |
| GeoJson.InnerRingsIgnored | src/utils/geoJsonLoader.ts:91-108 | Only the first ring is inspected; rings after it never change the verdict. |
| GeoJson.OpenRingAccepted | src/utils/geoJsonLoader.ts:91-108 | A ring of four distinct corners that is not closed is accepted, although RFC 7946, section 3.1.6, requires rings to be closed. |
| GeoJson.AcceptedYieldsPolygon | src/utils/geoJsonLoader.ts:19-36 | Accepted input always yields a polygon, never the "must contain a polygon" error. The polygon is the object itself, its geometry or the first feature's geometry, and is itself an accepted Polygon. |
| GeoJson.ParseOutcomes | src/utils/geoJsonLoader.ts:14-41 | The loader resolves exactly on parsed, accepted input and never rejects with the no-polygon error. It rejects with the invalid-file error exactly when validation returns false; a TypeError during validation rejects with the read error. |
| AppStore.MapLayers.Flip | src/store/useAppStore.ts:240-245 | The chosen layer's flag is negated and every other layer keeps its flag. |
| AppStore.FlipTwice | src/store/useAppStore.ts:240-245 | Toggling the same map layer twice restores the layers. |
| AppStore.Toggled | src/store/useAppStore.ts:220-224 | The value is in the result exactly when it was not in the list; the list grows by at most one. |
| AppStore.ToggleFlipsMembership | src/store/useAppStore.ts:220-224 | A toggle flips the value's membership; every other value keeps its number of occurrences. An absent value is appended at the end; a present one loses all its occurrences. |
| AppStore.ToggleRemovalKeepsOrder | src/store/useAppStore.ts:220-224 | Removing a value by toggling keeps the other elements in their order. |
| AppStore.ToggleKeepsDistinct | src/store/useAppStore.ts:220-229 | A duplicate-free list stays duplicate-free after a toggle. |
| AppStore.ToggleTwiceRestores | src/store/useAppStore.ts:220-224 | Toggling an absent value twice gives the list back. |
| AppStore.WithoutId | src/store/useAppStore.ts:216 | What remains is taken from the list and has another id, and every element with another id remains. |
| AppStore.WithoutIdKeepsOrder | src/store/useAppStore.ts:216 | Removal keeps the survivors in place: an element stays exactly when its id differs, and the parts before and after it are filtered independently. |
| AppStore.WithoutIdAppend | src/store/useAppStore.ts:216 | Removing an id from a concatenation gives the concatenation of the removals, so the survivors keep their order. |
| AppStore.WithoutIdSingleton | src/store/useAppStore.ts:216 | A single element survives exactly when its id differs from the removed one. |
| AppStore.WithoutIdCounts | src/store/useAppStore.ts:216 | Every element with another id keeps its number of occurrences; elements with the id all go. |
| AppStore.WithoutAbsentId | src/store/useAppStore.ts:216 | Removing an id nobody has changes nothing. |
| AppStore.AppendThenRemove | src/store/useAppStore.ts:210-218 | Appending an item with a new id and then removing that id gives the list back. |
| AppStore.ClearIfSelected | src/store/useAppStore.ts:238 | The selection survives exactly when its id differs from the removed one; otherwise it is cleared. |
| AppStore.SelectionAfterFarmRemoval | src/store/useAppStore.ts:215-218 | A surviving selection is the old one or the first farm of the list; no selection stays none. |
| AppStore.FarmRemovalSelection | src/store/useAppStore.ts:215-218 | A selection with another id survives. A matching one becomes the first farm of the list before removal, or null when that list was empty. |
| AppStore.FarmRemovalMayKeepRemovedFarm | src/store/useAppStore.ts:215-218 | Removing the only farm while it is selected empties the list but leaves that farm selected. |
| AppStore.WithPaddockAdded | src/store/useAppStore.ts:288-294 | Count, order and parcel ids are kept, and no parcel loses a paddock. |
| AppStore.PaddockAddedOnlyToMatchingParcels | src/store/useAppStore.ts:288-294 | Only parcels with the id gain the paddock, at the end of their list. Every other property and parcel, and the count and order, are unchanged. |
| AppStore.WithPaddockRemoved | src/store/useAppStore.ts:305-311 | Count, order and parcel ids are kept, and no parcel gains a paddock. |
| AppStore.PaddockRemovedOnlyFromMatchingParcels | src/store/useAppStore.ts:305-311 | The matching parcels' paddocks become `WithoutId` of the old ones: none with the id remains and every other one stays. Other parcels and all other properties are unchanged. |
| AppStore.AddThenRemovePaddock | src/store/useAppStore.ts:288-311 | Adding a paddock with a fresh id and then removing it gives the parcels back. |
| AppStore.Apply | src/store/useAppStore.ts:321 | Each property of the merged entry is the update's value when the update sets it and the entry's own otherwise (`Spread`); the modification time is the new time; an empty update changes nothing else. |
| AppStore.UpdatedHistory | src/store/useAppStore.ts:318-324 | Length is kept and entries with another id are unchanged. |
| AppStore.UpdateTouchesOnlyMatchingEntries | src/store/useAppStore.ts:318-324 | Length and order are kept and entries with another id are untouched. Each entry with the id takes every property the update sets, keeps every other property, and gets the new time. |
| AppStore.FindEntry | src/store/useAppStore.ts:327 | No result exactly when no entry has the id; otherwise the first entry with it. |
| AppStore.DeletedFromHistory | src/store/useAppStore.ts:326-347 | Neither list grows, and every remaining entry comes from the history and has another id. |
| AppStore.DeleteParcelCascades | src/store/useAppStore.ts:326-337 | Deleting a parcel entry keeps exactly the entries that neither have the id nor name it as parent, and the history shrinks. The parcels become `WithoutId` of the old ones: none with the id remains and every other one stays. |
| AppStore.DeleteOtherKeepsParcels | src/store/useAppStore.ts:339-346 | Any other id, including one without an entry: only the entries with the id go. Every parcel stays with its other properties; its paddocks become `WithoutId` of the old ones, so none with the id remains and every other one stays. |
| AppStore.DeleteWithoutEntryKeepsParcel | src/store/useAppStore.ts:326-347 | A parcel without a history entry is not removed by deleting its id. |
| AppStore.Store.constructor | src/store/useAppStore.ts:135-183 | Drought and flooding active, only the risk layer shown, every list empty and nothing selected; the toggled lists are duplicate-free. |
| AppStore.Store.AddFarm | src/store/useAppStore.ts:210-213 | The farm is appended and selected; nothing else changes. |
| AppStore.Store.RemoveFarm | src/store/useAppStore.ts:215-218 | Farms with the id go, and the selection follows `SelectionAfterFarmRemoval` on the old list; nothing else changes. |
| AppStore.Store.ToggleRisk | src/store/useAppStore.ts:220-224 | The active risks are toggled; duplicate-freedom of the toggled lists is preserved. |
| AppStore.Store.ToggleCrop | src/store/useAppStore.ts:225-229 | The selected crops are toggled; duplicate-freedom is preserved. |
| AppStore.Store.ToggleCropLayer | src/store/useAppStore.ts:263-267 | The active crop layers are toggled; duplicate-freedom is preserved. |
| AppStore.Store.ToggleMapLayer | src/store/useAppStore.ts:240-245 | Exactly the chosen layer's flag is negated. |
| AppStore.Store.AddDrawnPolygon | src/store/useAppStore.ts:232-235 | The polygon is appended and selected. |
| AppStore.Store.RemoveDrawnPolygon | src/store/useAppStore.ts:236-239 | Polygons with the id go, and the selection is cleared only when its id matched. |
| AppStore.Store.AddParcel | src/store/useAppStore.ts:284-286 | The parcel is appended and the selection is left alone. |
| AppStore.Store.AddPaddockToParcel | src/store/useAppStore.ts:288-294 | The parcels become `WithPaddockAdded` of the old parcels; nothing else changes. |
| AppStore.Store.RemoveParcel | src/store/useAppStore.ts:300-303 | Parcels with the id go, and the selection is cleared only when its id matched. |
| AppStore.Store.RemovePaddockFromParcel | src/store/useAppStore.ts:305-311 | The parcels become `WithPaddockRemoved` of the old parcels; nothing else changes. |
| AppStore.Store.AddToHistory | src/store/useAppStore.ts:314-316 | The entry is appended to the history. |
| AppStore.Store.UpdatePolygonInHistory | src/store/useAppStore.ts:318-324 | The history becomes `UpdatedHistory` of the old history at the given time; nothing else changes. |
| AppStore.Store.DeleteFromHistory | src/store/useAppStore.ts:326-347 | History and parcels both become `DeletedFromHistory` of their old values; nothing else changes. |
| Permissions.RolePermissions | src/types/user.ts:53-90 | Every role may view reports, and only administrators may delete farms. |
| Permissions.PermissionsFor | src/hooks/useAuth.ts:26-28 | With a profile, the permissions of its role. Without one, viewing reports is the only permission granted, and every role covers it. |
| Permissions.AdminHasEverything | src/types/user.ts:54-62 | An administrator holds every permission. |
| Permissions.EveryoneViewsReports | src/types/user.ts:53-90 | Every role, and a visitor without a profile, may view reports. |
| Permissions.AdminOnlyPermissions | src/types/user.ts:53-90 | Deleting farms, managing users and managing settings are granted exactly to administrators. |
| Permissions.PermissionsMonotone | src/types/user.ts:53-90 | Along viewer, operator, manager, admin each role holds every permission of the roles before it, and strictly more. Distinct roles have distinct permission sets. |
| Types.CropTypeNamesDistinct | src/types/index.ts:88 | Distinct crop types are distinct strings. |
| MockClimatData.PadStart | src/data/mockClimatData.ts:32 | The padded string has the larger of the two lengths, ends with the original string and starts with fill characters. |
| MockClimatData.DecimalRoundTrip | src/data/mockClimatData.ts:32 | Reading back the decimal string of n gives n. |
| MockClimatData.LeadingZerosIgnored | src/data/mockClimatData.ts:32 | Leading zeros do not change a digit string's value. |
| MockClimatData.StepLabelDenotesHour | src/data/mockClimatData.ts:32 | Below 1000, a label has three digits and denotes its hour. |
| MockClimatData.GetMockSteps | src/data/mockClimatData.ts:29-35 | 25 labels; the k-th is the padded label of hour 3k, three digits, with value 3k. |
| MockClimatData.StepsRunFromZeroTo72 | src/data/mockClimatData.ts:29-35 | The steps start at "000", end at "072" and increase strictly in value. |
| MockClimatData.MockCropLayers | src/data/mockClimatData.ts:97-231 | The catalogue has five layers with distinct ids, whose crop types follow the order of `getAllCropTypes`. |
| MockClimatData.RectangleFeatureAccepted | src/data/mockClimatData.ts:97-231 | A Feature wrapping a closed rectangular Polygon is accepted by the GeoJSON validation. |
| MockClimatData.MockGeometriesValid | src/data/mockClimatData.ts:97-231 | Every catalogue geometry is a Feature the GeoJSON validation accepts. |
| MockClimatData.GetCropLayersByType | src/data/mockClimatData.ts:319-321 | The result holds exactly the catalogue layers of the requested type. |
| MockClimatData.OneLayerPerCropType | src/data/mockClimatData.ts:319-321 | The catalogue lists one layer per crop type, in the order of `getAllCropTypes`. Each lookup yields exactly that one layer. |
| MockClimatData.GetAllCropTypes | src/data/mockClimatData.ts:326-328 | Five crop types without repetition. |
| MockClimatData.AllCropTypesListed | src/data/mockClimatData.ts:326-328 | Every crop type is listed. |
| MockClimatData.GetMockAnalysisCrops | src/data/mockClimatData.ts:334-395 | The result is empty exactly when the polygon is missing or falsy, or its `coordinates` are missing, falsy or have a `length` of 0: an empty array, an empty string or an object whose `length` property is 0. |
| MockClimatData.AnalysisCropsWrapPolygon | src/data/mockClimatData.ts:357-394 | Otherwise there are three layers, maize, wheat and vine, each a Feature wrapping the given polygon itself. |
| MockClimatData.AnalysisOfValidPolygon | src/data/mockClimatData.ts:334-395 | Any accepted Polygon can be analysed, and every analysis layer's geometry is then an accepted Feature. |
| MockClimatData.AnalysisRejectsEmptyCoordinates | src/data/mockClimatData.ts:335-337 | An empty coordinate list, missing coordinates, null, undefined and an object `{length: 0}` each give no layers. |

## Left out

- Reading the file (`FileReader`) and `JSON.parse` are not modelled. The loader takes the parse result as an `Option<Json>`, where `None` means the parse threw.
- The `onerror` path of the file loader and the Leaflet-based area and layer helpers of the same file are not part of this model.
- Lines 49-71 of `transformToHeatmapPoints` compute a range normalisation that is never read, so they are not modelled; `min` and `max` are accepted and ignored.
- The declared `HeatmapPoint` type of `src/types/index.ts` is not modelled; the point holds the fields the transform actually pushes.
- ClimatUtils.Intensity: computed on exact reals; IEEE-754 rounding of the division is not modelled.
- GeoValidation.IsPointInsidePolygon: exact real arithmetic. A polygon without rings, or a null position, would make the source throw; a position with fewer than two numbers yields `undefined` coordinates, so its edges never count. These inputs are outside the `Polygon` type.
- HeatLayer.ToLeafletHeatFormat: the `console.warn` for a non-array argument (src/utils/heatmapGenerator.ts:77) is output only; the model keeps its `[]` result.
- The `||` fallbacks of `getSeverityColor`, `getSeverityLabel` and `getRecommendation` are unreachable for the five severity values, so the tables are total functions without them.
- `AppStore.HistoryUpdate` has no `lastModified` key, because the reducer always overwrites it. An explicit `undefined` for a required property is not modelled.
- The store's setters, chat, onboarding, base layer, loading flags, `fetchInitialData` and the backend load/save/delete actions are not modelled. They are asynchronous, network or storage work, or a single assignment.
- The clock of `updatePolygonInHistory` is the parameter `now`.
- The random, trigonometric and clock-based generators of the mock data file are not modelled.
- The crop metadata and names of the catalogue are kept, but no lemma is stated about them.
- Rendering, React effects and map layers are not modelled.
- The unit tests of `climatUtils` predate the magnitude-based rewrite and contradict the code, so they are not used as requirements.

## Findings

| source | as written | input that shows it | evidently intended | confidence | as-written member | corrected member |
|---|---|---|---|---|---|---|
| src/components/MapView.tsx:184-185 | The heat and cold overlays test `isExtremeHeat`/`isExtremeCold` on `p.intensity`, which the transform keeps in [0, 1]. Both overlays are therefore always empty. | A single cell with value 5 (intensity 1): the heat overlay is empty. | Test the signed raw value `p.rawValue`, which the predicates are documented for. | high; not executed | ExtremeOverlays.OverlaysAsWrittenAlwaysEmpty | ExtremeOverlays.OverlaysSelectSignedTails |
| src/utils/climatUtils.ts:182-186 | Every recommendation text holds its UTF-8 bytes decoded as Mac OS Roman. For example, the check mark reads as three characters beginning with a low quotation mark. | `getRecommendation('VERY_HIGH')` starts with the Apple logo character rather than a siren. | The UTF-8 texts with the check mark, warning sign and siren symbols and accented Spanish. | high; not executed | ClimatUtils.RecommendationsMisdecoded | ClimatUtils.RecommendationSymbols |
